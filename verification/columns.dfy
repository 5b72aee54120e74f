/** What the rows say: in every state of every run each row of the two tables carries, column by
    column, what the statement that last wrote it was given. */
module Columns {
  import opened Wrappers
  import opened Notification
  import opened Rows
  import opened Tables
  import opened Ledgers
  import opened Protocol
  import opened Invariant
  import opened Safety
  import opened Origins

  // ---------- tasks ----------

  // Everything but status, lease, retry time and the columns of the last result.
  ghost predicate SameCounts(t: Task, row: Task) {
    row.request == t.request && row.attempts == t.attempts && row.generation == t.generation
  }

  ghost predicate SameResult(t: Task, row: Task) {
    && row.lastHttpStatus == t.lastHttpStatus && row.lastErrorCode == t.lastErrorCode
    && row.lastErrorMessage == t.lastErrorMessage
  }

  ghost predicate NoLease(row: Task) {
    row.leaseToken.None? && row.leaseUntil.None?
  }

  // A new task.
  ghost predicate Inserted(step: Step, id: TaskId, row: Task) {
    && step.Create? && step.id == id && row.request == step.request && row.status == Pending
    && row.attempts == 0 && row.generation == 0 && row.updatedAt == step.request.createdAt
    && row.lastHttpStatus == 0 && row.lastErrorCode == "" && row.lastErrorMessage == ""
    && row.nextAttemptAt.None? && NoLease(row) && row.deliveredAt.None? && row.deadAt.None?
  }

  // A lease until the moment asked for, and one more attempt.
  ghost predicate Leased(t: Task, step: Step, row: Task) {
    && step.Claim? && t.status == Pending && row.status == Delivering
    && row.leaseToken == Some(step.worker) && row.leaseUntil == Some(step.until) && row.updatedAt == step.at
    && row.request == t.request && row.attempts == t.attempts + 1 && row.generation == t.generation
    && SameResult(t, row) && row.nextAttemptAt.None?
  }

  // What the session that holds the lease got from the supplier, and what it decided.
  ghost predicate Resulted(s: State, t: Task, step: Step, row: Task) {
    && step.Apply? && t.status == Delivering && t.leaseToken == Some(step.worker)
    && step.worker in s.workers && s.workers[step.worker].progress.Answer?
    && SameCounts(t, row) && NoLease(row) && row.updatedAt == step.completedAt
    && var answer, snapshot := s.workers[step.worker].progress.result, s.workers[step.worker].progress.snapshot;
       && row.lastHttpStatus == answer.httpStatus && row.lastErrorCode == answer.errorCode
       && row.lastErrorMessage == answer.errorMessage
       && var next := NextAttempt(snapshot.request.policy, snapshot.attempts, answer.retryAfter, step.completedAt,
                                  Some((d: Duration) => step.jittered));
          match answer.outcome
          case Succeeded =>
            && row.status == Delivered && row.deliveredAt == Some(step.completedAt)
            && row.nextAttemptAt.None? && row.deadAt.None?
          case Permanent => GivenUp(row, step.completedAt)
          case Retryable =>
            if next.Some?
            then row.status == RetryWait && row.nextAttemptAt == next && row.deliveredAt.None? && row.deadAt.None?
            else GivenUp(row, step.completedAt)
  }

  ghost predicate GivenUp(row: Task, at: Time) {
    row.status == Dead && row.deadAt == Some(at) && row.nextAttemptAt.None? && row.deliveredAt.None?
  }

  // Out of attempts or of time, or due in the next generation; what the last result said stays,
  // but for the code.
  ghost predicate PickedUp(t: Task, step: Step, row: Task) {
    && step.ScheduleDue? && (t.status == RetryWait || t.status == Delivering)
    && row.request == t.request && row.attempts == t.attempts && NoLease(row) && row.updatedAt == step.now
    && row.lastHttpStatus == t.lastHttpStatus && row.lastErrorMessage == t.lastErrorMessage
    && if t.attempts >= t.request.policy.maxAttempts || step.now >= t.request.createdAt + t.request.policy.lifetime
       then GivenUp(row, step.now) && row.generation == t.generation && row.lastErrorCode == t.lastErrorCode
       else
         && row.status == Pending && row.generation == t.generation + 1
         && row.lastErrorCode == (if t.status == Delivering then "delivery_lease_expired" else "")
         && row.nextAttemptAt.None? && row.deliveredAt.None? && row.deadAt.None?
  }

  ghost predicate Revived(t: Task, step: Step, id: TaskId, row: Task) {
    && step.Replay? && step.id == id && t.status == Dead && row.status == Pending && row.updatedAt == step.now
    && row.request == t.request && row.attempts == t.attempts && row.generation == t.generation + 1
    && SameResult(t, row) && NoLease(row)
    && row.nextAttemptAt.None? && row.deliveredAt.None? && row.deadAt.None?
  }

  // The step wrote the row that the task has after it.
  ghost predicate Wrote(s: State, step: Step, id: TaskId, row: Task) {
    || (id !in s.db.tasks && Inserted(step, id, row))
    || (id in s.db.tasks && (
          || Leased(s.db.tasks[id], step, row)
          || Resulted(s, s.db.tasks[id], step, row)
          || PickedUp(s.db.tasks[id], step, row)
          || Revived(s.db.tasks[id], step, id, row)))
  }

  lemma ClaimWrote(t: Task, step: Step)
    requires Shaped(t) && step.Claim? && t.status == Pending
    ensures Leased(t, step, ClaimRow(t, step.worker, step.until, step.at))
  {}

  lemma ResultWrote(s: State, t: Task, step: Step)
    requires step.Apply? && step.worker in s.workers && s.workers[step.worker].progress.Answer? && Owns(t, step.worker)
    ensures Resulted(s, t, step, ApplyRow(t, Decision(s.workers[step.worker], step.completedAt, step.jittered)))
  {}

  lemma PassWrote(t: Task, step: Step)
    requires Shaped(t) && step.ScheduleDue? && Due(t, step.now)
    ensures PickedUp(t, step, ScheduleRow(t, step.now))
  {}

  lemma ReplayWrote(t: Task, step: Step)
    requires Shaped(t) && step.Replay? && t.status == Dead
    ensures Revived(t, step, step.id, ReplayRow(t, step.now))
  {}

  lemma ChangeWrote(s: State, step: Step, id: TaskId, v': View)
    requires id in s.db.tasks ==> Shaped(s.db.tasks[id]) && id in s.ledgers
    requires Changes(Of(s, id), step, Decided(s, step), v')
    requires v'.row.Some? && v'.row != Row(s.db.tasks, id) && (step.Create? || step.Replay? ==> step.id == id)
    ensures Wrote(s, step, id, v'.row.value)
  {
    if id in s.db.tasks {
      var t := s.db.tasks[id];
      match step
      case Claim(w, until, at, fault) => ClaimWrote(t, step);
      case Apply(w, at, jittered, fault) => ResultWrote(s, t, step);
      case ScheduleDue(now, rows) => PassWrote(t, step);
      case Replay(i, now, event) => ReplayWrote(t, step);
      case _ =>
    }
  }

  lemma RowShaped(s: State, id: TaskId)
    requires Inv(s) && id in s.db.tasks
    ensures Shaped(s.db.tasks[id]) && id in s.ledgers
  {
    assert id in s.ledgers && TaskOk(s.db.tasks[id], s.ledgers[id]);
  }

  // Creating or replaying one task leaves all others alone.
  lemma OthersKept(s: State, step: Step, id: TaskId)
    requires Enabled(s, step) && (step.Create? || step.Replay?) && step.id != id
    ensures Row(Do(s, step).db.tasks, id) == Row(s.db.tasks, id)
  {
    if step.Create? {
      CreatedOther(s, step.id, step.request, step.event, id);
    } else {
      ReplayedOther(s, step.id, step.now, step.event, id);
    }
  }

  lemma CreatedOther(s: State, i: TaskId, request: Request, event: EventId, id: TaskId)
    requires i != id
    ensures Row(DoCreate(s, i, request, event).db.tasks, id) == Row(s.db.tasks, id)
  {}

  lemma ReplayedOther(s: State, i: TaskId, now: Time, event: EventId, id: TaskId)
    requires i != id
    ensures Row(DoReplay(s, i, now, event).db.tasks, id) == Row(s.db.tasks, id)
  {}

  lemma StepWrote(s: State, step: Step, id: TaskId)
    requires Inv(s) && Enabled(s, step) && Row(Do(s, step).db.tasks, id).Some?
    requires Row(Do(s, step).db.tasks, id) != Row(s.db.tasks, id)
    ensures Wrote(s, step, id, Do(s, step).db.tasks[id])
  {
    if (step.Create? || step.Replay?) && step.id != id {
      OthersKept(s, step, id);
    } else {
      if id in s.db.tasks {
        RowShaped(s, id);
      }
      StepChanges(s, step, id);
      ChangeWrote(s, step, id, Of(Do(s, step), id));
    }
  }

  // Some step of the run wrote the row.
  ghost predicate WrittenIn(s: State, steps: seq<Step>, t: State, id: TaskId, row: Task)
    requires Runs(s, steps, t)
    decreases |steps|
  {
    steps != [] && (Wrote(s, steps[0], id, row) || WrittenIn(Do(s, steps[0]), steps[1..], t, id, row))
  }

  lemma {:induction false} LastWriter(s: State, steps: seq<Step>, t: State, id: TaskId)
    requires Inv(s) && Runs(s, steps, t) && id in t.db.tasks
    ensures Row(s.db.tasks, id) == Row(t.db.tasks, id) || WrittenIn(s, steps, t, id, t.db.tasks[id])
    decreases |steps|
  {
    if steps == [] {
    } else {
      var mid := Do(s, steps[0]);
      StepKeeps(s, steps[0]);
      LastWriter(mid, steps[1..], t, id);
      if Row(mid.db.tasks, id) == Row(t.db.tasks, id) && Row(mid.db.tasks, id) != Row(s.db.tasks, id) {
        StepWrote(s, steps[0], id);
      }
    }
  }

  // Every task row in every run from the empty database is what one of the run's statements wrote,
  // in all its columns.
  lemma RowsAreWritten(steps: seq<Step>, t: State, id: TaskId)
    requires Runs(Init(), steps, t) && id in t.db.tasks
    ensures WrittenIn(Init(), steps, t, id, t.db.tasks[id])
  {
    InitHolds();
    LastWriter(Init(), steps, t, id);
  }

  // ---------- events ----------

  // A new event announces its task's generation.
  ghost predicate Announces(s: State, step: Step, e: EventId, row: Event) {
    && e !in s.db.events
    && row.publishedAt.None? && row.claimToken.None? && row.claimUntil.None? && row.publishAttempts == 0
    && match step
       case Create(id, request, event) =>
         e == event && row.aggregate == id && row.generation == 0 && row.createdAt == request.createdAt
       case Replay(id, now, event) =>
         && e == event && row.aggregate == id && row.createdAt == now
         && id in s.db.tasks && row.generation == s.db.tasks[id].generation + 1
       case ScheduleDue(now, rows) =>
         && row.aggregate in rows && row.createdAt == now && e == Digest(row.aggregate, row.generation)
         && row.aggregate in s.db.tasks && row.generation == s.db.tasks[row.aggregate].generation + 1
       case _ => false
  }

  ghost predicate SameEvent(was: Event, row: Event) {
    row.aggregate == was.aggregate && row.generation == was.generation && row.createdAt == was.createdAt
  }

  // A claim until the moment asked for, of an event that is unpublished and unclaimed or whose
  // claim has run out.
  ghost predicate ClaimedUntil(was: Event, step: Step, e: EventId, row: Event) {
    && step.ClaimOutbox? && e in step.events
    && was.publishedAt.None? && (was.claimUntil.Some? ==> was.claimUntil.value < step.now)
    && SameEvent(was, row) && row.publishedAt.None? && row.publishAttempts == was.publishAttempts + 1
    && row.claimToken == Some(step.publisher) && row.claimUntil == Some(step.until)
  }

  // The mark of the session that has the claim.
  ghost predicate Marked(was: Event, step: Step, row: Event) {
    && step.MarkPublished? && was.publishedAt.None? && was.claimToken == Some(step.publisher)
    && SameEvent(was, row) && row.publishAttempts == was.publishAttempts
    && row.publishedAt == Some(step.at) && row.claimToken.None? && row.claimUntil.None?
  }

  ghost predicate WroteEvent(s: State, step: Step, e: EventId, row: Event) {
    || Announces(s, step, e, row)
    || (e in s.db.events && (ClaimedUntil(s.db.events[e], step, e, row) || Marked(s.db.events[e], step, row)))
  }

  lemma PassAnnounces(s: State, rows: seq<TaskId>, now: Time, e: EventId)
    requires Inv(s) && DueRows(s.db, rows, now)
    ensures var after := DoSchedule(s, rows, now).db.events;
      && (e in s.db.events ==> e in after && after[e] == s.db.events[e])
      && (e in after && e !in s.db.events ==> Announces(s, ScheduleDue(now, rows), e, after[e]))
  {
    assert s.db.tasks.Keys <= s.ledgers.Keys;
    ScheduleStatement(s, rows, now);
    DigestsNamed(s);
    ScheduleAllEvents(s.db, rows, now);
  }

  lemma BirthAnnounces(s: State, step: Step, e: EventId)
    requires Enabled(s, step) && (step.Create? || step.Replay?) && s.db.events.Keys <= s.born.Keys
    ensures var after := Do(s, step).db.events;
      && (e in s.db.events ==> e in after && after[e] == s.db.events[e])
      && (e in after && e !in s.db.events ==> Announces(s, step, e, after[e]))
  {}

  lemma OutboxWrote(s: State, step: Step, e: EventId)
    requires Enabled(s, step) && !step.ScheduleDue? && !step.Create? && !step.Replay?
    requires e in Do(s, step).db.events && EventRow(Do(s, step).db, e) != EventRow(s.db, e)
    ensures WroteEvent(s, step, e, Do(s, step).db.events[e])
  {
    OtherEvent(s, step, e);
  }

  lemma EventsBorn(s: State)
    requires Inv(s)
    ensures s.db.events.Keys <= s.born.Keys
  {
    forall e | e in s.db.events ensures e in s.born {
      assert EventOk(e, s.db.events[e], s.born, s.enqueued);
    }
  }

  lemma StepWroteEvent(s: State, step: Step, e: EventId)
    requires Inv(s) && Enabled(s, step)
    requires e in Do(s, step).db.events && EventRow(Do(s, step).db, e) != EventRow(s.db, e)
    ensures WroteEvent(s, step, e, Do(s, step).db.events[e])
  {
    if step.ScheduleDue? {
      PassAnnounces(s, step.rows, step.now, e);
    } else if step.Create? || step.Replay? {
      EventsBorn(s);
      BirthAnnounces(s, step, e);
    } else {
      OutboxWrote(s, step, e);
    }
  }

  ghost predicate EventWrittenIn(s: State, steps: seq<Step>, t: State, e: EventId, row: Event)
    requires Runs(s, steps, t)
    decreases |steps|
  {
    steps != [] && (WroteEvent(s, steps[0], e, row) || EventWrittenIn(Do(s, steps[0]), steps[1..], t, e, row))
  }

  lemma {:induction false} LastEventWriter(s: State, steps: seq<Step>, t: State, e: EventId)
    requires Inv(s) && Runs(s, steps, t) && e in t.db.events
    ensures EventRow(s.db, e) == EventRow(t.db, e) || EventWrittenIn(s, steps, t, e, t.db.events[e])
    decreases |steps|
  {
    if steps == [] {
    } else {
      var mid := Do(s, steps[0]);
      StepKeeps(s, steps[0]);
      LastEventWriter(mid, steps[1..], t, e);
      if EventRow(mid.db, e) == EventRow(t.db, e) && EventRow(mid.db, e) != EventRow(s.db, e) {
        StepWroteEvent(s, steps[0], e);
      }
    }
  }

  // And so is every event row.
  lemma EventsAreWritten(steps: seq<Step>, t: State, e: EventId)
    requires Runs(Init(), steps, t) && e in t.db.events
    ensures EventWrittenIn(Init(), steps, t, e, t.db.events[e])
  {
    InitHolds();
    LastEventWriter(Init(), steps, t, e);
  }

  // The mark of a session whose claim has been taken over, or whose event has been published,
  // changes nothing.
  lemma SupersededMarkIsInert(s: State, p: Token, at: Time, fault: Fault, e: EventId)
    requires Reachable(s) && Enabled(s, Step.MarkPublished(p, at, fault))
    requires s.publishers[p].batch[s.publishers[p].next].event == e
    ensures Do(s, Step.MarkPublished(p, at, fault)).db != s.db <==>
      && fault != Lost && e in s.db.events
      && s.db.events[e].claimToken == Some(p) && s.db.events[e].publishedAt.None?
  {
    var t := DoMarkPublished(s, p, at, fault);
    if fault != Lost && e in s.db.events && MarkMatches(s.db.events[e], p) {
      assert t.db.events[e].publishedAt == Some(at);
    }
  }
}
