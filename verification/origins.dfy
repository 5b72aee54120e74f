/** Where the tables' contents come from: every step of the protocol is one database statement,
    `published` goes back to an enqueue, `delivered` to a 2xx response, a new claim to an expired one. */
module Origins {
  import opened Wrappers
  import opened Notification
  import opened Rows
  import opened Tables
  import opened Ledgers
  import opened Protocol
  import opened Invariant
  import opened Safety

  // ---------- each step is one statement ----------

  // The database statement or transaction behind a step, whether its caller learns of it or not.
  ghost function Statement(s: State, step: Step): DB
    requires Enabled(s, step)
  {
    match step
    case Create(id, request, event) => Tables.Create(s.db, id, request, event)
    case ClaimOutbox(p, events, now, until, fault) => Tables.ClaimOutbox(s.db, events, p, until)
    case MarkPublished(p, at, fault) =>
      if fault == Lost then s.db
      else Tables.MarkPublished(s.db, s.publishers[p].batch[s.publishers[p].next].event, p, at)
    case Claim(w, until, at, fault) =>
      if fault == Lost then s.db else ClaimDelivery(s.db, s.workers[w].message.task, w, until, at)
    case Apply(w, at, jittered, fault) =>
      if fault == Lost then s.db
      else ApplyResult(s.db, s.workers[w].message.task, w, Decision(s.workers[w], at, jittered))
    case ScheduleDue(now, rows) => ScheduleAll(s.db, rows, now)
    case Replay(id, now, event) => ReplayDead(s.db, id, now, event)
    case DeleteTerminal(cutoff, doomed) => Delete(s.db, doomed)
    case _ => s.db
  }

  lemma ScheduleOneStatement(s: State, id: TaskId, now: Time)
    requires id in s.db.tasks ==> id in s.ledgers
    ensures DoScheduleOne(s, id, now).db == ScheduleOne(s.db, id, now)
  {}

  lemma {:induction false} ScheduleStatement(s: State, rows: seq<TaskId>, now: Time)
    requires s.db.tasks.Keys <= s.ledgers.Keys
    ensures DoSchedule(s, rows, now).db == ScheduleAll(s.db, rows, now)
    ensures DoSchedule(s, rows, now).db.tasks.Keys <= DoSchedule(s, rows, now).ledgers.Keys
  {
    if rows == [] {
    } else {
      var init := rows[..|rows| - 1];
      ScheduleStatement(s, init, now);
      ScheduleOneStatement(DoSchedule(s, init, now), rows[|rows| - 1], now);
      ScheduleOneOnly(DoSchedule(s, init, now), rows[|rows| - 1], now);
    }
  }

  lemma HandleStatement(s: State, step: Step)
    requires Enabled(s, step) && HandleStep(step) && s.db.tasks.Keys <= s.ledgers.Keys
    ensures Do(s, step).db == Statement(s, step)
  {
    match step
    case Claim(w, until, at, fault) => assert DoClaim(s, w, until, at, fault).db == Statement(s, step);
    case Admit(w, admitted) =>
    case Send(w, result) =>
    case Apply(w, at, jittered, fault) => assert DoApply(s, w, at, jittered, fault).db == Statement(s, step);
  }

  lemma OtherStatement(s: State, step: Step)
    requires Enabled(s, step) && !HandleStep(step) && !step.ScheduleDue? && s.db.tasks.Keys <= s.ledgers.Keys
    ensures Do(s, step).db == Statement(s, step)
  {}

  lemma StepIsStatement(s: State, step: Step)
    requires Reachable(s) && Enabled(s, step)
    ensures Do(s, step).db == Statement(s, step)
  {
    ReachableHolds(s);
    assert s.db.tasks.Keys <= s.ledgers.Keys;
    if HandleStep(step) {
      HandleStatement(s, step);
    } else if step.ScheduleDue? {
      ScheduleStatement(s, step.rows, step.now);
    } else {
      OtherStatement(s, step);
    }
  }

  // ---------- one event under one step ----------

  function EventRow(db: DB, e: EventId): Option<Event> {
    if e in db.events then Some(db.events[e]) else None
  }

  // What a step does to one event: nothing, its birth if its id is new, a claim, its mark, or its
  // task's deletion.
  ghost predicate EventChanges(e: EventId, before: Option<Event>, known: bool, step: Step, after: Option<Event>) {
    || after == before
    || (!known && before.None? && after.Some? && after.value.publishedAt.None? && after.value.claimToken.None?
        && (step.Create? || step.ScheduleDue? || step.Replay?))
    || (before.Some? && (
          || (step.ClaimOutbox? && e in step.events && Claimable(before.value, step.now)
              && after == Some(ClaimEvent(before.value, step.publisher, step.until)))
          || (step.MarkPublished? && MarkMatches(before.value, step.publisher)
              && after == Some(MarkEvent(before.value, step.at)))
          || (step.DeleteTerminal? && after.None?)))
  }

  lemma DigestsNamed(s: State)
    requires Inv(s)
    ensures DigestsName(s.db.events)
  {
    forall f | f in s.db.events && f.Digest?
      ensures s.db.events[f].aggregate == f.task && s.db.events[f].generation == f.generation
    {
      assert EventOk(f, s.db.events[f], s.born, s.enqueued);
    }
  }

  lemma ScheduleEvent(s: State, rows: seq<TaskId>, now: Time, e: EventId)
    requires Inv(s) && DueRows(s.db, rows, now)
    ensures EventChanges(e, EventRow(s.db, e), e in s.born, ScheduleDue(now, rows),
                         EventRow(DoSchedule(s, rows, now).db, e))
  {
    assert s.db.tasks.Keys <= s.ledgers.Keys;
    ScheduleStatement(s, rows, now);
    DigestsNamed(s);
    ScheduleAllEvents(s.db, rows, now);
    if NewlyScheduled(s.db, rows, now, e) {
      SlotFree(s, e.task, e.generation);
    }
  }

  lemma CreateEvent(s: State, step: Step, e: EventId)
    requires step.Create? && Enabled(s, step) && s.db.events.Keys <= s.born.Keys
    ensures EventChanges(e, EventRow(s.db, e), e in s.born, step, EventRow(Do(s, step).db, e))
  {}

  lemma ReplayEvent(s: State, step: Step, e: EventId)
    requires step.Replay? && Enabled(s, step) && s.db.events.Keys <= s.born.Keys
    ensures EventChanges(e, EventRow(s.db, e), e in s.born, step, EventRow(Do(s, step).db, e))
  {}

  lemma BirthEvent(s: State, step: Step, e: EventId)
    requires Inv(s) && Enabled(s, step) && (step.Create? || step.Replay?)
    ensures EventChanges(e, EventRow(s.db, e), e in s.born, step, EventRow(Do(s, step).db, e))
  {
    assert s.db.events.Keys <= s.born.Keys;
    assert step.event !in s.born;
    if step.Create? {
      CreateEvent(s, step, e);
    } else {
      ReplayEvent(s, step, e);
    }
  }

  lemma OutboxEvent(s: State, step: Step, e: EventId)
    requires Enabled(s, step) && (step.ClaimOutbox? || step.MarkPublished? || step.DeleteTerminal?)
    ensures EventChanges(e, EventRow(s.db, e), e in s.born, step, EventRow(Do(s, step).db, e))
  {}

  lemma QuietEvents(s: State, step: Step)
    requires Enabled(s, step)
    requires BrokerStep(step) || HandleStep(step) || step.Publish? || step.StopPublisher?
    ensures Do(s, step).db.events == s.db.events
  {}

  lemma StepEvent(s: State, step: Step, e: EventId)
    requires Inv(s) && Enabled(s, step)
    ensures EventChanges(e, EventRow(s.db, e), e in s.born, step, EventRow(Do(s, step).db, e))
  {
    if step.ScheduleDue? {
      ScheduleEvent(s, step.rows, step.now, e);
    } else if step.Create? || step.Replay? {
      BirthEvent(s, step, e);
    } else {
      OtherEvent(s, step, e);
    }
  }

  lemma OtherEvent(s: State, step: Step, e: EventId)
    requires Enabled(s, step) && !step.ScheduleDue? && !step.Create? && !step.Replay?
    ensures EventChanges(e, EventRow(s.db, e), e in s.born, step, EventRow(Do(s, step).db, e))
  {
    if step.ClaimOutbox? || step.MarkPublished? || step.DeleteTerminal? {
      OutboxEvent(s, step, e);
    } else {
      QuietEvents(s, step);
    }
  }

  lemma HistoryGrows(s: State, step: Step)
    requires Enabled(s, step)
    ensures s.born.Keys <= Do(s, step).born.Keys && s.claims <= Do(s, step).claims
  {
    if step.ScheduleDue? {
      ScheduleOnly(s, step.rows, step.now);
    }
  }

  // ---------- publication ----------

  ghost predicate Enqueues(s: State, step: Step, e: EventId)
    requires Enabled(s, step)
  {
    step.Publish? && step.arrives && s.publishers[step.publisher].batch[s.publishers[step.publisher].next].event == e
  }

  // Some step of the run put event e on the broker.
  ghost predicate EnqueuedIn(s: State, steps: seq<Step>, t: State, e: EventId)
    requires Runs(s, steps, t)
    decreases |steps|
  {
    steps != [] && (Enqueues(s, steps[0], e) || EnqueuedIn(Do(s, steps[0]), steps[1..], t, e))
  }

  lemma {:induction false} EnqueuedRecorded(s: State, steps: seq<Step>, t: State, e: EventId)
    requires Runs(s, steps, t)
    ensures e in t.enqueued <==> e in s.enqueued || EnqueuedIn(s, steps, t, e)
    decreases |steps|
  {
    if steps == [] {
    } else {
      EnqueueStep(s, steps[0], e);
      EnqueuedRecorded(Do(s, steps[0]), steps[1..], t, e);
    }
  }

  lemma EnqueueStep(s: State, step: Step, e: EventId)
    requires Enabled(s, step)
    ensures e in Do(s, step).enqueued <==> e in s.enqueued || Enqueues(s, step, e)
  {
    if step.ScheduleDue? {
      ScheduleOnly(s, step.rows, step.now);
    }
  }

  // An event is marked published only after the broker has taken it.
  lemma PublishedWasEnqueued(steps: seq<Step>, t: State, e: EventId)
    requires Runs(Init(), steps, t) && e in t.db.events && t.db.events[e].publishedAt.Some?
    ensures EnqueuedIn(Init(), steps, t, e)
  {
    InitHolds();
    RunKeeps(Init(), steps, t);
    assert EventOk(e, t.db.events[e], t.born, t.enqueued);
    EnqueuedRecorded(Init(), steps, t, e);
  }

  // published_at is set at most once.
  lemma {:induction false} PublishedOnce(s: State, steps: seq<Step>, t: State, e: EventId)
    requires Inv(s) && Runs(s, steps, t) && e in s.born
    requires e in s.db.events ==> s.db.events[e].publishedAt.Some?
    ensures e in t.db.events ==>
      e in s.db.events && t.db.events[e].publishedAt == s.db.events[e].publishedAt
    decreases |steps|
  {
    if steps == [] {
    } else {
      StepEvent(s, steps[0], e);
      StepKeeps(s, steps[0]);
      HistoryGrows(s, steps[0]);
      PublishedOnce(Do(s, steps[0]), steps[1..], t, e);
    }
  }

  // ---------- claims ----------

  // Some step of the run claimed event e at a clock reading past `until`.
  ghost predicate TakenOverIn(s: State, steps: seq<Step>, t: State, e: EventId, until: Time)
    requires Runs(s, steps, t)
    decreases |steps|
  {
    steps != []
    && ((steps[0].ClaimOutbox? && e in steps[0].events && steps[0].now > until)
        || TakenOverIn(Do(s, steps[0]), steps[1..], t, e, until))
  }

  // A published or deleted event is not claimed again.
  lemma NeverClaimedAgain(s: State, steps: seq<Step>, t: State, e: EventId)
    requires Inv(s) && Runs(s, steps, t) && e in s.born
    requires e in s.db.events ==> s.db.events[e].publishedAt.Some?
    ensures e in t.db.events ==> t.db.events[e].claimToken.None?
  {
    RunKeeps(s, steps, t);
    PublishedOnce(s, steps, t, e);
    assert e in t.db.events ==> EventOk(e, t.db.events[e], t.born, t.enqueued);
  }

  lemma ClaimUnderChange(e: EventId, before: Event, step: Step, after: Option<Event>, p: Token, until: Time)
    requires EventChanges(e, Some(before), true, step, after)
    requires before.claimToken == Some(p) && before.claimUntil == Some(until)
    ensures || (after.Some? ==> after.value.publishedAt.Some?)
            || after == Some(before)
            || (step.ClaimOutbox? && e in step.events && step.now > until)
  {}

  // One step leaves a claim alone, finishes it, or takes it over past its end.
  lemma ClaimUnderStep(s: State, step: Step, e: EventId, p: Token, until: Time)
    requires Inv(s) && Enabled(s, step) && e in s.db.events
    requires s.db.events[e].claimToken == Some(p) && s.db.events[e].claimUntil == Some(until)
    ensures e in s.born
    ensures var events := Do(s, step).db.events;
            || (e in events ==> events[e].publishedAt.Some?)
            || events[e] == s.db.events[e]
            || (step.ClaimOutbox? && e in step.events && step.now > until)
  {
    assert EventOk(e, s.db.events[e], s.born, s.enqueued);
    StepEvent(s, step, e);
    ClaimUnderChange(e, s.db.events[e], step, EventRow(Do(s, step).db, e), p, until);
  }

  lemma ClaimNext(s: State, step: Step, e: EventId, p: Token, until: Time)
    requires Inv(s) && Enabled(s, step) && e in s.db.events
    requires s.db.events[e].claimToken == Some(p) && s.db.events[e].claimUntil == Some(until)
    ensures var mid := Do(s, step);
      && Inv(mid) && e in mid.born
      && ((step.ClaimOutbox? && e in step.events && step.now > until)
          || (e in mid.db.events && mid.db.events[e] == s.db.events[e])
          || (e in mid.db.events ==> mid.db.events[e].publishedAt.Some?))
  {
    StepKeeps(s, step);
    HistoryGrows(s, step);
    ClaimUnderStep(s, step, e, p, until);
  }

  // An event claimed until `until` by publisher p reaches another publisher only by a claim whose
  // clock has passed `until`.
  lemma {:induction false} ClaimsExclude(s: State, steps: seq<Step>, t: State, e: EventId, p: Token, until: Time)
    requires Inv(s) && Runs(s, steps, t) && e in s.db.events
    requires s.db.events[e].claimToken == Some(p) && s.db.events[e].claimUntil == Some(until)
    requires e in t.db.events && t.db.events[e].claimToken.Some? && t.db.events[e].claimToken != Some(p)
    ensures TakenOverIn(s, steps, t, e, until)
    decreases |steps|
  {
    var step, mid := steps[0], Do(s, steps[0]);
    ClaimNext(s, step, e, p, until);
    if step.ClaimOutbox? && e in step.events && step.now > until {
    } else if e in mid.db.events && mid.db.events[e] == s.db.events[e] {
      ClaimsExclude(mid, steps[1..], t, e, p, until);
    } else {
      NeverClaimedAgain(mid, steps[1..], t, e);
    }
  }

  // And a claim lasts as long as it asked for: after the session has claimed the event until
  // `until`, another session has it only after a claim past that.
  lemma ClaimLasts(s: State, p: Token, events: seq<EventId>, now: Time, until: Time, fault: Fault,
                   steps: seq<Step>, t: State, e: EventId)
    requires Reachable(s) && Enabled(s, Step.ClaimOutbox(p, events, now, until, fault)) && e in events
    requires Runs(Do(s, Step.ClaimOutbox(p, events, now, until, fault)), steps, t)
    ensures var claimed := Do(s, Step.ClaimOutbox(p, events, now, until, fault));
      && e in claimed.db.events && claimed.db.events[e].claimToken == Some(p)
      && (e in t.db.events && t.db.events[e].claimToken.Some? && t.db.events[e].claimToken != Some(p) ==>
            TakenOverIn(claimed, steps, t, e, until))
  {
    ReachableHolds(s);
    var claim := Step.ClaimOutbox(p, events, now, until, fault);
    StepKeeps(s, claim);
    ClaimedEventRow(s, p, events, until, fault, e);
    if e in t.db.events && t.db.events[e].claimToken.Some? && t.db.events[e].claimToken != Some(p) {
      ClaimsExclude(Do(s, claim), steps, t, e, p, until);
    }
  }

  lemma ClaimedEventRow(s: State, p: Token, events: seq<EventId>, until: Time, fault: Fault, e: EventId)
    requires (forall f | f in events :: f in s.db.events) && e in events
    ensures var after := DoClaimOutbox(s, p, events, until, fault).db.events;
      e in after && after[e].claimToken == Some(p) && after[e].claimUntil == Some(until)
  {}

  // ---------- leases ----------

  // Some step of the run ended lease w of the task: its own committed result, or a pass of the
  // scheduler whose clock had passed `until`.
  ghost predicate LeaseEndedIn(s: State, steps: seq<Step>, t: State, id: TaskId, w: Token, until: Time)
    requires Runs(s, steps, t)
    decreases |steps|
  {
    steps != []
    && (EndsLease(s, steps[0], id, w, until) || LeaseEndedIn(Do(s, steps[0]), steps[1..], t, id, w, until))
  }

  ghost predicate EndsLease(s: State, step: Step, id: TaskId, w: Token, until: Time)
    requires Enabled(s, step)
  {
    || (step.Apply? && step.worker == w && step.fault != Lost && s.workers[w].message.task == id)
    || (step.ScheduleDue? && id in step.rows && step.now > until)
  }

  // One step leaves a lease and its end alone, or ends it.
  lemma LeaseUnderChange(v: View, step: Step, decided: Option<AttemptResult>, v': View, w: Token, until: Time)
    requires Changes(v, step, decided, v') && v.row.Some?
    requires Owns(v.row.value, w) && v.row.value.leaseUntil == Some(until)
    ensures || v'.row == v.row
            || (step.Apply? && step.worker == w)
            || (step.ScheduleDue? && step.now > until)
  {}

  lemma ResultOnlyUnderLease(s: State, w: Token, at: Time, jittered: Duration, fault: Fault, id: TaskId)
    requires w in s.workers && s.workers[w].progress.Answer?
    ensures Row(DoApply(s, w, at, jittered, fault).db.tasks, id) != Row(s.db.tasks, id) ==>
      id in s.db.tasks && Owns(s.db.tasks[id], w) && fault != Lost && s.workers[w].message.task == id
  {}

  lemma LeaseUnderStep(s: State, step: Step, id: TaskId, w: Token, until: Time)
    requires Inv(s) && Enabled(s, step) && id in s.db.tasks
    requires Owns(s.db.tasks[id], w) && s.db.tasks[id].leaseUntil == Some(until)
    ensures Row(Do(s, step).db.tasks, id) == Row(s.db.tasks, id) || EndsLease(s, step, id, w, until)
  {
    if step.Apply? {
      ResultOnlyUnderLease(s, step.worker, step.completedAt, step.jittered, step.fault, id);
    } else if step.ScheduleDue? && id !in step.rows {
      PassApart(s, step.now, step.rows, id);
    } else {
      StepChanges(s, step, id);
      LeaseUnderChange(Of(s, id), step, Decided(s, step), Of(Do(s, step), id), w, until);
    }
  }

  lemma PassApart(s: State, now: Time, rows: seq<TaskId>, id: TaskId)
    requires Inv(s) && Enabled(s, Step.ScheduleDue(now, rows)) && id !in rows
    ensures Row(DoSchedule(s, rows, now).db.tasks, id) == Row(s.db.tasks, id)
  {
    ScheduleApart(s, rows, now, id);
    assert Of(DoSchedule(s, rows, now), id).row == Of(s, id).row;
  }

  // A leased task leaves its lease only by that lease's own result, or by a pass of the scheduler
  // whose clock has passed the lease's end.
  lemma {:induction false} LeasesExclude(s: State, steps: seq<Step>, t: State, id: TaskId, w: Token, until: Time)
    requires Inv(s) && Runs(s, steps, t) && id in s.db.tasks
    requires Owns(s.db.tasks[id], w) && s.db.tasks[id].leaseUntil == Some(until)
    ensures Row(t.db.tasks, id) == Row(s.db.tasks, id) || LeaseEndedIn(s, steps, t, id, w, until)
    decreases |steps|
  {
    if steps == [] {
    } else {
      LeaseUnderStep(s, steps[0], id, w, until);
      if Row(Do(s, steps[0]).db.tasks, id) == Row(s.db.tasks, id) {
        StepKeeps(s, steps[0]);
        LeasesExclude(Do(s, steps[0]), steps[1..], t, id, w, until);
      }
    }
  }

  // And a lease lasts as long as its claim asked for: after a committed claim until `until` the row
  // is the session's, and stays as it is in every run without its result and without a pass of the
  // scheduler past `until`.
  lemma LeaseLasts(s: State, w: Token, until: Time, at: Time, fault: Fault, steps: seq<Step>, t: State)
    requires Reachable(s) && Enabled(s, Claim(w, until, at, fault)) && fault != Lost
    requires var id := s.workers[w].message.task; id in s.db.tasks && s.db.tasks[id].status == Pending
    requires Runs(Do(s, Claim(w, until, at, fault)), steps, t)
    ensures var id, claimed := s.workers[w].message.task, Do(s, Claim(w, until, at, fault));
      && id in claimed.db.tasks
      && claimed.db.tasks[id].status == Delivering && claimed.db.tasks[id].leaseToken == Some(w)
      && (Row(t.db.tasks, id) == Row(claimed.db.tasks, id) || LeaseEndedIn(claimed, steps, t, id, w, until))
  {
    ReachableHolds(s);
    var id, claim := s.workers[w].message.task, Claim(w, until, at, fault);
    StepKeeps(s, claim);
    ClaimedRow(s, w, until, at, fault);
    LeasesExclude(Do(s, claim), steps, t, id, w, until);
  }

  lemma ClaimedRow(s: State, w: Token, until: Time, at: Time, fault: Fault)
    requires w in s.workers && fault != Lost && s.workers[w].message.task in s.ledgers
    requires var id := s.workers[w].message.task; id in s.db.tasks && s.db.tasks[id].status == Pending
    ensures var id, tasks := s.workers[w].message.task, DoClaim(s, w, until, at, fault).db.tasks;
      && id in tasks && tasks[id].status == Delivering
      && tasks[id].leaseToken == Some(w) && tasks[id].leaseUntil == Some(until)
  {}

  // ---------- waiting ----------

  // Some step of the run was a pass of the scheduler over the task, at `at` or later.
  ghost predicate PickedUpIn(s: State, steps: seq<Step>, t: State, id: TaskId, at: Time)
    requires Runs(s, steps, t)
    decreases |steps|
  {
    steps != []
    && ((steps[0].ScheduleDue? && id in steps[0].rows && steps[0].now >= at)
        || PickedUpIn(Do(s, steps[0]), steps[1..], t, id, at))
  }

  lemma WaitUnderChange(v: View, step: Step, decided: Option<AttemptResult>, v': View, at: Time)
    requires Changes(v, step, decided, v') && v.row.Some?
    requires v.row.value.status == RetryWait && v.row.value.nextAttemptAt == Some(at)
    ensures v'.row == v.row || (step.ScheduleDue? && step.now >= at)
  {}

  lemma WaitUnderStep(s: State, step: Step, id: TaskId, at: Time)
    requires Inv(s) && Enabled(s, step) && id in s.db.tasks
    requires s.db.tasks[id].status == RetryWait && s.db.tasks[id].nextAttemptAt == Some(at)
    ensures || Row(Do(s, step).db.tasks, id) == Row(s.db.tasks, id)
            || (step.ScheduleDue? && id in step.rows && step.now >= at)
  {
    if step.ScheduleDue? && id !in step.rows {
      PassApart(s, step.now, step.rows, id);
    } else {
      StepChanges(s, step, id);
      WaitUnderChange(Of(s, id), step, Decided(s, step), Of(Do(s, step), id), at);
    }
  }

  // A task waits for its retry time: its row stays as it is until a pass of the scheduler over it
  // whose clock has reached that time.
  lemma {:induction false} WaitsItsTime(s: State, steps: seq<Step>, t: State, id: TaskId, at: Time)
    requires Inv(s) && Runs(s, steps, t) && id in s.db.tasks
    requires s.db.tasks[id].status == RetryWait && s.db.tasks[id].nextAttemptAt == Some(at)
    ensures Row(t.db.tasks, id) == Row(s.db.tasks, id) || PickedUpIn(s, steps, t, id, at)
    decreases |steps|
  {
    if steps == [] {
    } else {
      WaitUnderStep(s, steps[0], id, at);
      if Row(Do(s, steps[0]).db.tasks, id) == Row(s.db.tasks, id) {
        StepKeeps(s, steps[0]);
        WaitsItsTime(Do(s, steps[0]), steps[1..], t, id, at);
      }
    }
  }

  // ---------- `delivered` ----------

  // Some step of the run was session w's call of Send for the task, answered with a 2xx status.
  ghost predicate SucceededIn(s: State, steps: seq<Step>, t: State, id: TaskId, w: Token)
    requires Runs(s, steps, t)
    decreases |steps|
  {
    steps != []
    && ((steps[0].Send? && steps[0].worker == w && s.workers[w].message.task == id
         && steps[0].result.outcome == Succeeded && 200 <= steps[0].result.httpStatus < 300)
        || SucceededIn(Do(s, steps[0]), steps[1..], t, id, w))
  }

  lemma SuccessStep(s: State, step: Step, id: TaskId, w: Token)
    requires Inv(s) && Enabled(s, step)
    requires id in Do(s, step).ledgers && w in Do(s, step).ledgers[id].succeeded
    ensures (id in s.ledgers && w in s.ledgers[id].succeeded)
      || (step.Send? && step.worker == w && s.workers[w].message.task == id && step.result.outcome == Succeeded
          && 200 <= step.result.httpStatus < 300)
  {
    if step.Send? {
      SuccessSend(s, step.worker, step.result, id, w);
    } else {
      StepChanges(s, step, id);
      SuccessChange(Of(s, id), step, Decided(s, step), Of(Do(s, step), id), w);
    }
  }

  lemma SuccessSend(s: State, w: Token, result: SendResult, id: TaskId, v: Token)
    requires Enabled(s, Send(w, result))
    requires id in DoSend(s, w, result).ledgers && v in DoSend(s, w, result).ledgers[id].succeeded
    ensures id in s.ledgers
    ensures v in s.ledgers[id].succeeded
      || (v == w && s.workers[w].message.task == id && result.outcome == Succeeded && 200 <= result.httpStatus < 300)
  {}

  lemma SuccessChange(v: View, step: Step, decided: Option<AttemptResult>, v': View, w: Token)
    requires Changes(v, step, decided, v') && !step.Send? && v'.ledger.Some? && w in v'.ledger.value.succeeded
    ensures v.ledger.Some? && w in v.ledger.value.succeeded
  {}

  lemma {:induction false} SuccessRecorded(s: State, steps: seq<Step>, t: State, id: TaskId, w: Token)
    requires Inv(s) && Runs(s, steps, t) && id in t.ledgers && w in t.ledgers[id].succeeded
    requires id in s.ledgers ==> w !in s.ledgers[id].succeeded
    ensures SucceededIn(s, steps, t, id, w)
    decreases |steps|
  {
    var mid := Do(s, steps[0]);
    StepKeeps(s, steps[0]);
    if id in mid.ledgers && w in mid.ledgers[id].succeeded {
      SuccessStep(s, steps[0], id, w);
    } else {
      SuccessRecorded(mid, steps[1..], t, id, w);
    }
  }

  // A delivered row goes back to a 2xx answer to a call made under the lease whose result
  // committed it.
  lemma DeliveredMeansAccepted(steps: seq<Step>, t: State, id: TaskId)
    requires Runs(Init(), steps, t) && id in t.db.tasks && t.db.tasks[id].status == Delivered
    ensures id in t.ledgers && 200 <= t.db.tasks[id].lastHttpStatus < 300
    ensures exists w | w in t.ledgers[id].applied :: SucceededIn(Init(), steps, t, id, w)
  {
    InitHolds();
    RunKeeps(Init(), steps, t);
    assert TaskOk(t.db.tasks[id], t.ledgers[id]);
    SuccessRecorded(Init(), steps, t, id, t.ledgers[id].deliveredBy.value);
  }

  // ---------- retention ----------

  // Retention deletes delivered and dead tasks that were last touched before the cutoff and whose
  // events are all published, and nothing else; afterwards every event still has its task.
  lemma RetentionIsSafe(s: State, cutoff: Time, doomed: set<TaskId>)
    requires Reachable(s) && Enabled(s, DeleteTerminal(cutoff, doomed))
    ensures var db := Do(s, DeleteTerminal(cutoff, doomed)).db;
            && Inv(Do(s, DeleteTerminal(cutoff, doomed)))
            && (forall id | id in s.db.tasks && id !in db.tasks ::
                  && (s.db.tasks[id].status == Delivered || s.db.tasks[id].status == Dead)
                  && s.db.tasks[id].updatedAt < cutoff
                  && forall e | e in s.db.events && s.db.events[e].aggregate == id :: s.db.events[e].publishedAt.Some?)
            && (forall id | id in db.tasks :: db.tasks[id] == s.db.tasks[id])
            && (forall e | e in db.events :: db.events[e].aggregate in db.tasks)
  {
    ReachableHolds(s);
    StepKeeps(s, DeleteTerminal(cutoff, doomed));
  }

  // A deleted task stays deleted; a claim of it is answered "not acquired" and its message is
  // acknowledged, and an in-flight result for it is refused. Neither touches the tables.
  lemma DeletedStaysDeleted(s: State, steps: seq<Step>, t: State, id: TaskId, step: Step)
    requires Reachable(s) && id in s.ledgers && id !in s.db.tasks && Runs(s, steps, t) && Enabled(t, step)
    ensures id !in t.db.tasks
    ensures step.Claim? && t.workers[step.worker].message.task == id ==>
      (Do(t, step).db == t.db
       && (step.fault == Answered ==> Do(t, step).workers[step.worker].progress == Done(Ack)))
    ensures step.Apply? && t.workers[step.worker].message.task == id ==> Do(t, step).db == t.db
  {
    ReachableHolds(s);
    RunIsLater(s, steps, t, id);
  }

  // ---------- request identity ----------

  // Over any run in which the task is not deleted, a request with its caller and key meets exactly
  // this task, with the request it was created with.
  lemma KeyKeepsItsTask(s: State, steps: seq<Step>, t: State, id: TaskId, request: Request)
    requires Reachable(s) && id in s.db.tasks && Runs(s, steps, t) && id in t.db.tasks
    requires s.db.tasks[id].request.SameKey(request)
    ensures t.db.tasks[id].request == s.db.tasks[id].request
    ensures KeyTaken(t.db, request)
    ensures forall other | other in t.db.tasks && t.db.tasks[other].request.SameKey(request) :: other == id
  {
    ReachableHolds(s);
    RunKeeps(s, steps, t);
    RunIsLater(s, steps, t, id);
    assert t.db.tasks[id].request.SameKey(request);
  }
}
