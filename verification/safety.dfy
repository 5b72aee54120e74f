/** What holds of every reachable state, and of every run. */
module Safety {
  import opened Wrappers
  import opened Notification
  import opened Rows
  import opened Tables
  import opened Ledgers
  import opened Protocol
  import opened Invariant

  // ---------- one step, seen from one task ----------

  // A row and its history, as far as they exist.
  datatype View = View(row: Option<Task>, ledger: Option<Ledger>)

  ghost function Of(s: State, id: TaskId): View {
    View(Row(s.db.tasks, id), if id in s.ledgers then Some(s.ledgers[id]) else None)
  }

  // What the session that applies its result has decided.
  ghost function Decided(s: State, step: Step): Option<AttemptResult> {
    if step.Apply? && step.worker in s.workers && s.workers[step.worker].progress.Answer?
    then Some(Decision(s.workers[step.worker], step.completedAt, step.jittered)) else None
  }

  // What a step does to one task: nothing, or exactly one of the six row changes, a counted
  // call of Send, or the deletion.
  ghost predicate Changes(v: View, step: Step, decided: Option<AttemptResult>, v': View) {
    || v' == v
    || (step.Create? && v == View(None, None)
        && v' == View(Some(NewTask(step.request)), Some(NewLedger(step.request))))
    || (v.ledger.Some? && (
          || (step.Claim? && v.row.Some? && v.row.value.status == Pending
              && v' == View(Some(ClaimRow(v.row.value, step.worker, step.until, step.at)),
                            Some(Granted(v.ledger.value, step.worker))))
          || (step.Send? && v' == View(v.row, Some(Sent(v.ledger.value, step.worker, step.result))))
          || (step.Apply? && v.row.Some? && Owns(v.row.value, step.worker) && decided.Some?
              && v' == View(Some(ApplyRow(v.row.value, decided.value)),
                            Some(Applied(v.ledger.value, step.worker, decided.value.outcome))))
          || (step.ScheduleDue? && v.row.Some? && Due(v.row.value, step.now)
              && v' == View(Some(ScheduleRow(v.row.value, step.now)), Some(Scheduled(v.ledger.value, v.row.value))))
          || (step.Replay? && v.row.Some? && v.row.value.status == Dead
              && v' == View(Some(ReplayRow(v.row.value, step.now)), Some(Replayed(v.ledger.value))))
          || (step.DeleteTerminal? && v.row.Some? && Terminal(v.row.value.status) && v' == View(None, v.ledger))))
  }

  lemma ScheduleOneView(s: State, turn: TaskId, now: Time, id: TaskId)
    ensures Of(DoScheduleOne(s, turn, now), id) ==
      if turn == id && id in s.db.tasks && id in s.ledgers
      then View(Some(ScheduleRow(s.db.tasks[id], now)), Some(Scheduled(s.ledgers[id], s.db.tasks[id])))
      else Of(s, id)
  {}

  lemma {:induction false} ScheduleApart(s: State, rows: seq<TaskId>, now: Time, id: TaskId)
    requires id !in rows || id !in s.db.tasks || id !in s.ledgers
    ensures Of(DoSchedule(s, rows, now), id) == Of(s, id)
  {
    if rows == [] {
    } else {
      var init, last := rows[..|rows| - 1], rows[|rows| - 1];
      ScheduleApart(s, init, now, id);
      ScheduleOneView(DoSchedule(s, init, now), last, now, id);
    }
  }

  lemma {:induction false} ScheduleTurn(s: State, rows: seq<TaskId>, now: Time, id: TaskId)
    requires Distinct(rows) && id in rows && id in s.db.tasks && id in s.ledgers
    ensures Of(DoSchedule(s, rows, now), id) ==
      View(Some(ScheduleRow(s.db.tasks[id], now)), Some(Scheduled(s.ledgers[id], s.db.tasks[id])))
  {
    var init, last := rows[..|rows| - 1], rows[|rows| - 1];
    assert rows == init + [last];
    ScheduleOneView(DoSchedule(s, init, now), last, now, id);
    if id == last {
      assert id !in init;
      ScheduleApart(s, init, now, id);
    } else {
      ScheduleTurn(s, init, now, id);
    }
  }

  lemma ScheduleChanges(s: State, now: Time, rows: seq<TaskId>, id: TaskId)
    requires DueRows(s.db, rows, now)
    ensures Changes(Of(s, id), ScheduleDue(now, rows), None, Of(DoSchedule(s, rows, now), id))
  {
    if id in rows && id in s.ledgers {
      ScheduleTurn(s, rows, now, id);
    } else {
      ScheduleApart(s, rows, now, id);
    }
  }

  lemma ApplyChanges(s: State, w: Token, at: Time, jittered: Duration, fault: Fault, id: TaskId)
    requires w in s.workers && s.workers[w].progress.Answer?
    ensures Changes(Of(s, id), Apply(w, at, jittered, fault), Some(Decision(s.workers[w], at, jittered)),
                    Of(DoApply(s, w, at, jittered, fault), id))
  {
    var r := Decision(s.workers[w], at, jittered);
    if Of(DoApply(s, w, at, jittered, fault), id) != Of(s, id) {
      assert Of(DoApply(s, w, at, jittered, fault), id) ==
        View(Some(ApplyRow(s.db.tasks[id], r)), Some(Applied(s.ledgers[id], w, r.outcome)));
    }
  }

  lemma CreateChanges(s: State, id: TaskId, request: Request, event: EventId, other: TaskId)
    requires Inv(s) && id !in s.ledgers
    ensures Changes(Of(s, other), Create(id, request, event), None, Of(DoCreate(s, id, request, event), other))
  {
    assert id !in s.db.tasks;
  }

  lemma DeleteChanges(s: State, cutoff: Time, doomed: set<TaskId>, id: TaskId)
    requires Inv(s) && forall i | i in doomed :: Deletable(s.db, i, cutoff)
    ensures Changes(Of(s, id), DeleteTerminal(cutoff, doomed), None, Of(s.(db := Delete(s.db, doomed)), id))
  {}

  lemma ClaimChanges(s: State, w: Token, until: Time, at: Time, fault: Fault, id: TaskId)
    requires w in s.workers
    ensures Changes(Of(s, id), Claim(w, until, at, fault), None, Of(DoClaim(s, w, until, at, fault), id))
  {}

  lemma SendChanges(s: State, w: Token, result: SendResult, id: TaskId)
    requires w in s.workers && s.workers[w].progress.Admitted?
    ensures Changes(Of(s, id), Send(w, result), None, Of(DoSend(s, w, result), id))
  {}

  lemma HandleChanges(s: State, step: Step, id: TaskId)
    requires Enabled(s, step) && HandleStep(step)
    ensures Changes(Of(s, id), step, Decided(s, step), Of(Do(s, step), id))
  {
    match step
    case Claim(w, until, at, fault) => ClaimChanges(s, w, until, at, fault, id);
    case Admit(w, admitted) => assert Of(Do(s, step), id) == Of(s, id);
    case Send(w, result) => SendChanges(s, w, result, id);
    case Apply(w, at, jittered, fault) => ApplyChanges(s, w, at, jittered, fault, id);
  }

  lemma QuietStep(s: State, step: Step, id: TaskId)
    requires Enabled(s, step)
    requires BrokerStep(step) || step.ClaimOutbox? || step.Publish? || step.MarkPublished? || step.StopPublisher?
    ensures Of(Do(s, step), id) == Of(s, id)
  {}

  lemma ReplayChanges(s: State, i: TaskId, now: Time, event: EventId, id: TaskId)
    ensures Changes(Of(s, id), Replay(i, now, event), None, Of(DoReplay(s, i, now, event), id))
  {}

  lemma StepChanges(s: State, step: Step, id: TaskId)
    requires Inv(s) && Enabled(s, step)
    ensures Changes(Of(s, id), step, Decided(s, step), Of(Do(s, step), id))
  {
    if HandleStep(step) {
      HandleChanges(s, step, id);
    } else if BrokerStep(step) || step.ClaimOutbox? || step.Publish? || step.MarkPublished? || step.StopPublisher? {
      QuietStep(s, step, id);
    } else {
      match step
      case Create(i, request, event) => CreateChanges(s, i, request, event, id);
      case ScheduleDue(now, rows) => ScheduleChanges(s, now, rows, id);
      case Replay(i, now, event) => ReplayChanges(s, i, now, event, id);
      case DeleteTerminal(cutoff, doomed) => DeleteChanges(s, cutoff, doomed, id);
    }
  }

  // ---------- what only ever grows ----------

  ghost predicate Grew(l: Ledger, l': Ledger) {
    && l'.maxAttempts == l.maxAttempts
    && l.granted <= l'.granted && l.applied <= l'.applied && l.recovered <= l'.recovered
    && l.sent <= l'.sent && l.succeeded <= l'.succeeded
  }

  // v' may come later than v: ids are not reused, requests are immutable, generations and attempt
  // counts never fall, a task never returns to a pending generation, and `delivered` is final.
  ghost predicate Later(v: View, v': View) {
    && (v.ledger.Some? ==> v'.ledger.Some? && Grew(v.ledger.value, v'.ledger.value))
    && (v.ledger.Some? && v.row.None? ==> v'.row.None?)
    && (v.row.Some? && v'.row.Some? ==>
          && v'.row.value.request == v.row.value.request
          && v.row.value.generation <= v'.row.value.generation
          && v.row.value.attempts <= v'.row.value.attempts
          && (v.row.value.status == Delivered ==> v'.row == v.row)
          && (v'.row.value.generation == v.row.value.generation && v'.row.value.status == Pending ==>
                v.row.value.status == Pending))
  }

  lemma ChangeIsLater(v: View, step: Step, decided: Option<AttemptResult>, v': View)
    requires Changes(v, step, decided, v') && (v.row.Some? ==> v.ledger.Some?)
    ensures Later(v, v')
  {}

  lemma {:induction false} RunIsLater(s: State, steps: seq<Step>, t: State, id: TaskId)
    requires Inv(s) && Runs(s, steps, t)
    ensures Later(Of(s, id), Of(t, id))
    decreases |steps|
  {
    if steps == [] {
    } else {
      var mid := Do(s, steps[0]);
      StepKeeps(s, steps[0]);
      StepChanges(s, steps[0], id);
      ChangeIsLater(Of(s, id), steps[0], Decided(s, steps[0]), Of(mid, id));
      RunIsLater(mid, steps[1..], t, id);
      LaterJoins(Of(s, id), Of(mid, id), Of(t, id));
    }
  }

  lemma LaterJoins(v: View, v': View, v'': View)
    requires Later(v, v') && Later(v', v'') && (v.row.Some? ==> v.ledger.Some?)
    requires v'.row.None? && v.row.Some? ==> v'.ledger.Some?
    ensures Later(v, v'')
  {}
}
