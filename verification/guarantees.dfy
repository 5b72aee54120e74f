/** The protocol's guarantees, for every reachable state and every run: nothing is lost, supplier
    calls are bounded, stale owners are harmless. */
module Guarantees {
  import opened Wrappers
  import opened Notification
  import opened Rows
  import opened Tables
  import opened Ledgers
  import opened Protocol
  import opened Invariant
  import opened Safety

  // ---------- dispatch coverage ----------

  // A pending task's current event is still to be published, or a copy of it is in the broker
  // and not yet acknowledged.
  lemma DispatchCoverage(s: State, id: TaskId)
    requires Reachable(s) && id in s.db.tasks && s.db.tasks[id].status == Pending
    ensures exists e | e in s.db.events ::
      && s.db.events[e].aggregate == id && s.db.events[e].generation == s.db.tasks[id].generation
      && (s.db.events[e].publishedAt.None?
          || exists tag | tag in s.copies :: s.copies[tag].message == Message(e, id))
  {
    ReachableHolds(s);
    var slot := Slot(id, s.db.tasks[id].generation);
    var e := s.slots[slot];
    assert e in s.db.events && EventOk(e, s.db.events[e], s.born, s.enqueued) && s.born[e] == slot;
    if s.db.events[e].publishedAt.Some? {
      assert HasCopy(s.copies, e);
      var tag :| tag in s.copies && s.copies[tag].message.event == e;
      assert MessageOk(s.copies[tag].message, s.born);
      assert s.copies[tag].message == Message(e, id);
    }
  }

  // Once a worker may acknowledge a generation-g message, the task is never pending in
  // generation g again, whatever happens next.
  lemma AcknowledgedIsSettled(s: State, w: Token, steps: seq<Step>, t: State, g: nat)
    requires Reachable(s) && w in s.workers && s.workers[w].progress == Done(Ack)
    requires s.workers[w].message.event in s.born && s.born[s.workers[w].message.event].generation == g
    requires Runs(s, steps, t)
    ensures var id := s.workers[w].message.task;
            id in t.db.tasks ==>
              (t.db.tasks[id].generation >= g
               && !(t.db.tasks[id].generation == g && t.db.tasks[id].status == Pending))
  {
    ReachableHolds(s);
    var id := s.workers[w].message.task;
    DoneIsSettled(s, w);
    RunIsLater(s, steps, t, id);
    SettledLater(Of(s, id), Of(t, id), g);
  }

  lemma SettledLater(v: View, v': View, g: nat)
    requires Later(v, v') && Settled(v.row, g) && (v.row.None? ==> v'.row.None?)
    ensures v'.row.Some? ==>
      v'.row.value.generation >= g && !(v'.row.value.generation == g && v'.row.value.status == Pending)
  {}

  // ---------- counting calls, replays and status changes along a run ----------

  datatype Tally = Tally(sends: nat, replays: nat, moves: nat)

  predicate StatusMoved(before: Option<Task>, after: Option<Task>) {
    before.Some? && after.Some? && before.value.status != after.value.status
  }

  // Whether a call of Send, or a replay, is for this task.
  ghost predicate Aims(s: State, step: Step, id: TaskId)
    requires Enabled(s, step)
  {
    (step.Send? && s.workers[step.worker].message.task == id) || (step.Replay? && step.id == id)
  }

  ghost function TallyOf(v: View, step: Step, v': View, aimed: bool): Tally {
    var replayed := step.Replay? && aimed && v.row.Some? && v.row.value.status == Dead;
    Tally(if step.Send? && aimed then 1 else 0,
          if replayed then 1 else 0,
          if !replayed && StatusMoved(v.row, v'.row) then 1 else 0)
  }

  ghost function Plus(a: Tally, b: Tally): Tally {
    Tally(a.sends + b.sends, a.replays + b.replays, a.moves + b.moves)
  }

  lemma PlusJoins(a: Tally, b: Tally, c: Tally)
    ensures Plus(Plus(a, b), c) == Plus(a, Plus(b, c))
  {}

  // Calls of Send for the task, committed replays of it, and its other status changes, in a run.
  ghost function RunTally(s: State, steps: seq<Step>, t: State, id: TaskId): Tally
    requires Runs(s, steps, t)
    decreases |steps|
  {
    if steps == [] then Tally(0, 0, 0)
    else
      var mid := Do(s, steps[0]);
      Plus(TallyOf(Of(s, id), steps[0], Of(mid, id), Aims(s, steps[0], id)), RunTally(mid, steps[1..], t, id))
  }

  // What the history has recorded of them.
  ghost function Recorded(v: View): Tally {
    if v.ledger.Some? then Tally(v.ledger.value.sends, v.ledger.value.replays, v.ledger.value.moves)
    else Tally(0, 0, 0)
  }

  lemma SendTally(v: View, step: Step, v': View, aimed: bool)
    requires step.Send? && v'.row == v.row
    requires if aimed && v.ledger.Some? then v'.ledger == Some(Sent(v.ledger.value, step.worker, step.result))
             else v'.ledger == v.ledger && !aimed
    ensures Recorded(v') == Plus(Recorded(v), TallyOf(v, step, v', aimed))
  {
    assert TallyOf(v, step, v', aimed) == Tally(if aimed then 1 else 0, 0, 0);
  }

  lemma ReplayTally(v: View, step: Step, v': View, aimed: bool)
    requires step.Replay? && (v.row.Some? ==> v.ledger.Some?)
    requires if aimed && v.row.Some? && v.row.value.status == Dead then v'.ledger == Some(Replayed(v.ledger.value))
             else v' == v
    ensures Recorded(v') == Plus(Recorded(v), TallyOf(v, step, v', aimed))
  {
    var replayed := aimed && v.row.Some? && v.row.value.status == Dead;
    assert TallyOf(v, step, v', aimed) == Tally(0, if replayed then 1 else 0, 0);
  }

  lemma OtherTally(v: View, step: Step, decided: Option<AttemptResult>, v': View, aimed: bool)
    requires Changes(v, step, decided, v') && !step.Send? && !step.Replay?
    ensures Recorded(v') == Plus(Recorded(v), TallyOf(v, step, v', aimed))
  {
    if v' != v {
      MoveTallies(v, step, decided, v');
    }
  }

  // Every other change of the row is one status change; a task's creation and deletion are none.
  lemma MoveTallies(v: View, step: Step, decided: Option<AttemptResult>, v': View)
    requires Changes(v, step, decided, v') && v' != v && !step.Send? && !step.Replay?
    ensures Recorded(v').sends == Recorded(v).sends && Recorded(v').replays == Recorded(v).replays
    ensures Recorded(v').moves == Recorded(v).moves + if StatusMoved(v.row, v'.row) then 1 else 0
  {}

  lemma SendView(s: State, w: Token, result: SendResult, id: TaskId)
    requires Inv(s) && Enabled(s, Send(w, result))
    ensures Of(DoSend(s, w, result), id) ==
      if s.workers[w].message.task == id then View(Row(s.db.tasks, id), Some(Sent(s.ledgers[id], w, result)))
      else Of(s, id)
  {}

  lemma ReplayView(s: State, i: TaskId, now: Time, event: EventId, id: TaskId)
    requires Inv(s)
    ensures Of(DoReplay(s, i, now, event), id) ==
      if i == id && id in s.db.tasks && s.db.tasks[id].status == Dead
      then View(Some(ReplayRow(s.db.tasks[id], now)), Some(Replayed(s.ledgers[id])))
      else Of(s, id)
  {}

  lemma AimedViews(s: State, step: Step, id: TaskId)
    requires Inv(s) && Enabled(s, step)
    ensures step.Send? ==>
      Of(Do(s, step), id) == if Aims(s, step, id)
                             then View(Row(s.db.tasks, id), Some(Sent(s.ledgers[id], step.worker, step.result)))
                             else Of(s, id)
    ensures step.Send? && Aims(s, step, id) ==> id in s.ledgers
    ensures step.Replay? ==>
      Of(Do(s, step), id) == if Aims(s, step, id) && id in s.db.tasks && s.db.tasks[id].status == Dead
                             then View(Some(ReplayRow(s.db.tasks[id], step.now)), Some(Replayed(s.ledgers[id])))
                             else Of(s, id)
  {
    if step.Send? {
      SendView(s, step.worker, step.result, id);
    } else if step.Replay? {
      ReplayView(s, step.id, step.now, step.event, id);
    }
  }

  lemma StepTallies(s: State, step: Step, id: TaskId)
    requires Inv(s) && Enabled(s, step)
    ensures Recorded(Of(Do(s, step), id)) ==
      Plus(Recorded(Of(s, id)), TallyOf(Of(s, id), step, Of(Do(s, step), id), Aims(s, step, id)))
  {
    var s' := Do(s, step);
    StepChanges(s, step, id);
    AimedViews(s, step, id);
    if step.Send? {
      SendTally(Of(s, id), step, Of(s', id), Aims(s, step, id));
    } else if step.Replay? {
      assert id in s.db.tasks ==> id in s.ledgers;
      ReplayTally(Of(s, id), step, Of(s', id), Aims(s, step, id));
    } else {
      OtherTally(Of(s, id), step, Decided(s, step), Of(s', id), Aims(s, step, id));
    }
  }

  lemma {:induction false} RunTallies(s: State, steps: seq<Step>, t: State, id: TaskId)
    requires Inv(s) && Runs(s, steps, t)
    ensures Recorded(Of(t, id)) == Plus(Recorded(Of(s, id)), RunTally(s, steps, t, id))
    decreases |steps|
  {
    if steps == [] {
      assert RunTally(s, steps, t, id) == Tally(0, 0, 0);
    } else {
      var mid := Do(s, steps[0]);
      var first := TallyOf(Of(s, id), steps[0], Of(mid, id), Aims(s, steps[0], id));
      var rest := RunTally(mid, steps[1..], t, id);
      assert RunTally(s, steps, t, id) == Plus(first, rest);
      assert Recorded(Of(t, id)) == Plus(Recorded(Of(mid, id)), rest) by {
        StepKeeps(s, steps[0]);
        RunTallies(mid, steps[1..], t, id);
      }
      StepTallies(s, steps[0], id);
      PlusJoins(Recorded(Of(s, id)), first, rest);
    }
  }

  // However often messages are duplicated, requeued or redelivered and whoever crashes: the
  // supplier is called at most once per counted attempt, and attempts stay within the budget
  // plus one per replay.
  lemma SendsBounded(steps: seq<Step>, t: State, id: TaskId)
    requires Runs(Init(), steps, t) && id in t.db.tasks
    ensures var tally := RunTally(Init(), steps, t, id);
            tally.sends <= t.db.tasks[id].attempts <= t.db.tasks[id].request.policy.maxAttempts + tally.replays
  {
    InitHolds();
    RunKeeps(Init(), steps, t);
    RunTallies(Init(), steps, t, id);
    assert TaskOk(t.db.tasks[id], t.ledgers[id]);
    SubsetSize(t.ledgers[id].sent, t.ledgers[id].granted);
  }

  // The same for a task that retention has deleted: the budget it was created with still binds
  // the workers that outlive its row.
  lemma SendsBoundedAfterDeletion(steps: seq<Step>, t: State, id: TaskId)
    requires Runs(Init(), steps, t) && id in t.ledgers
    ensures var tally := RunTally(Init(), steps, t, id);
            tally.sends <= t.ledgers[id].maxAttempts + tally.replays
    ensures id in t.db.tasks ==> t.ledgers[id].maxAttempts == t.db.tasks[id].request.policy.maxAttempts
  {
    InitHolds();
    RunKeeps(Init(), steps, t);
    RunTallies(Init(), steps, t, id);
    assert LedgerOk(t.ledgers[id]);
    SubsetSize(t.ledgers[id].sent, t.ledgers[id].granted);
  }

  lemma SubsetSize<T>(a: set<T>, b: set<T>)
    requires a <= b
    ensures |a| <= |b|
  {
    assert b == a + (b - a);
    assert |a + (b - a)| == |a| + |b - a|;
  }

  // No task changes status for ever: its status changes are bounded by its budget and its replays.
  lemma StatusChangesBounded(steps: seq<Step>, t: State, id: TaskId)
    requires Runs(Init(), steps, t) && id in t.ledgers
    ensures var tally := RunTally(Init(), steps, t, id);
            tally.moves <= 3 * t.ledgers[id].maxAttempts + 1 + 4 * tally.replays
  {
    InitHolds();
    RunKeeps(Init(), steps, t);
    RunTallies(Init(), steps, t, id);
    assert LedgerOk(t.ledgers[id]);
  }

  // The measure behind it: never negative, and down with every status change that is not a replay.
  lemma MeasureDrops(s: State, step: Step, id: TaskId)
    requires Reachable(s) && Enabled(s, step) && id in s.db.tasks && id in Do(s, step).db.tasks
    requires !step.Replay?
    ensures id in s.ledgers
    ensures var replays := s.ledgers[id].replays;
            var before, after := Measure(s.db.tasks[id], replays), Measure(Do(s, step).db.tasks[id], replays);
            && 0 <= after
            && (StatusMoved(Row(s.db.tasks, id), Row(Do(s, step).db.tasks, id)) ==> after < before)
            && (Do(s, step).db.tasks[id] == s.db.tasks[id] ==> after == before)
  {
    ReachableHolds(s);
    StepKeeps(s, step);
    StepChanges(s, step, id);
    assert TaskOk(s.db.tasks[id], s.ledgers[id]);
    var t := Do(s, step);
    assert TaskOk(t.db.tasks[id], t.ledgers[id]);
  }

  // ---------- exact counting ----------

  lemma ExactCounting(s: State, id: TaskId)
    requires Reachable(s) && id in s.db.tasks
    ensures var t := s.db.tasks[id];
            t.attempts == t.generation + (if t.status == Pending then 0 else 1)
    ensures forall g: nat | g <= s.db.tasks[id].generation :: SlotTaken(s.db.events, id, g)
    ensures forall g: nat | SlotTaken(s.db.events, id, g) :: g <= s.db.tasks[id].generation
    ensures forall e, f | e in s.db.events && f in s.db.events
      && s.db.events[e].aggregate == s.db.events[f].aggregate == id
      && s.db.events[e].generation == s.db.events[f].generation :: e == f
  {
    ReachableHolds(s);
    assert TaskOk(s.db.tasks[id], s.ledgers[id]);
    forall g: nat | g <= s.db.tasks[id].generation ensures SlotTaken(s.db.events, id, g) {
      var e := s.slots[Slot(id, g)];
      assert e in s.db.events && EventOk(e, s.db.events[e], s.born, s.enqueued) && s.born[e] == Slot(id, g);
    }
    SlotsKnown(s, id);
  }

  // An event lies within its task's generations, in the slot that is known to be its own.
  lemma SlotsKnown(s: State, id: TaskId)
    requires Inv(s) && id in s.db.tasks
    ensures forall e | e in s.db.events && s.db.events[e].aggregate == id ::
      var slot := Slot(id, s.db.events[e].generation);
      slot.generation <= s.db.tasks[id].generation && slot in s.slots && s.slots[slot] == e
  {
    forall e | e in s.db.events && s.db.events[e].aggregate == id
      ensures s.db.events[e].generation <= s.db.tasks[id].generation
      ensures Slot(id, s.db.events[e].generation) in s.slots && s.slots[Slot(id, s.db.events[e].generation)] == e
    {
      assert EventOk(e, s.db.events[e], s.born, s.enqueued);
    }
  }

  // The scheduler's ON CONFLICT arm is never taken, and the generations it makes stay below the budget.
  lemma ConflictArmIsDead(s: State, id: TaskId, now: Time)
    requires Reachable(s) && id in s.db.tasks && Due(s.db.tasks[id], now) && !Exhausted(s.db.tasks[id], now)
    ensures var g := s.db.tasks[id].generation + 1;
            !SlotTaken(s.db.events, id, g) && g <= s.db.tasks[id].request.policy.maxAttempts - 1
  {
    ReachableHolds(s);
    assert TaskOk(s.db.tasks[id], s.ledgers[id]);
    SlotFree(s, id, s.db.tasks[id].generation + 1);
  }

  // Every nullable column is set in exactly the status it belongs to, so every waiting or leased
  // task is due from some moment on.
  lemma NoTaskHides(s: State, id: TaskId)
    requires Reachable(s) && id in s.db.tasks
    ensures Shaped(s.db.tasks[id])
    ensures s.db.tasks[id].status == RetryWait || s.db.tasks[id].status == Delivering ==>
      exists from :: DueFrom(s.db.tasks[id], from)
  {
    ReachableHolds(s);
    var t := s.db.tasks[id];
    assert TaskOk(t, s.ledgers[id]);
    if t.status == RetryWait {
      assert DueFrom(t, t.nextAttemptAt.value);
    } else if t.status == Delivering {
      assert DueFrom(t, t.leaseUntil.value + 1);
    }
  }

  ghost predicate DueFrom(t: Task, from: Time) {
    forall now: Time | now >= from :: Due(t, now)
  }

  // ---------- leases ----------

  // Every counted attempt is a lease ended once, by its own result or by the scheduler, or the
  // one lease still running.
  lemma LeaseLedger(s: State, id: TaskId)
    requires Reachable(s) && id in s.db.tasks
    ensures id in s.ledgers
    ensures var t, l := s.db.tasks[id], s.ledgers[id];
            && l.applied !! l.recovered
            && t.attempts == |l.applied| + |l.recovered| + (if t.status == Delivering then 1 else 0)
  {
    ReachableHolds(s);
    var t, l := s.db.tasks[id], s.ledgers[id];
    assert TaskOk(t, l);
    assert |l.applied + l.recovered + OwnLease(t)| == |l.applied + l.recovered| + |OwnLease(t)|;
    assert |l.applied + l.recovered| == |l.applied| + |l.recovered|;
  }

  // A lease that has ended never owns its task again, in any later state.
  lemma EndedLeaseStaysEnded(s: State, id: TaskId, w: Token, steps: seq<Step>, t: State)
    requires Reachable(s) && id in s.ledgers && w in s.ledgers[id].applied + s.ledgers[id].recovered
    requires Runs(s, steps, t)
    ensures id in t.db.tasks ==> !Owns(t.db.tasks[id], w)
  {
    ReachableHolds(s);
    RunKeeps(s, steps, t);
    RunIsLater(s, steps, t, id);
    if id in t.db.tasks {
      assert TaskOk(t.db.tasks[id], t.ledgers[id]);
    }
  }

  // A result under a lease that does not own the row changes neither table.
  lemma StaleResultIsInert(s: State, w: Token, at: Time, jittered: Duration, fault: Fault)
    requires Reachable(s) && Enabled(s, Apply(w, at, jittered, fault))
    requires var id := s.workers[w].message.task; id !in s.db.tasks || !Owns(s.db.tasks[id], w)
    ensures Do(s, Apply(w, at, jittered, fault)).db == s.db
    ensures Do(s, Apply(w, at, jittered, fault)).workers[w].progress.Done?
  {}

  // ---------- status changes ----------

  // Every committed change is one edge of the state machine, or lease recovery's, which only the
  // scheduler makes.
  lemma StatusFollowsMachine(s: State, step: Step, id: TaskId)
    requires Reachable(s) && Enabled(s, step) && id in s.db.tasks && id in Do(s, step).db.tasks
    ensures var from, to := s.db.tasks[id].status, Do(s, step).db.tasks[id].status;
      from == to || CanTransition(from, to) || (step.ScheduleDue? && from == Delivering && to == Pending)
    ensures s.db.tasks[id].status == Delivered ==> Do(s, step).db.tasks[id] == s.db.tasks[id]
  {
    ReachableHolds(s);
    StepChanges(s, step, id);
    ChangeFollowsMachine(Of(s, id), step, Decided(s, step), Of(Do(s, step), id));
  }

  lemma ChangeFollowsMachine(v: View, step: Step, decided: Option<AttemptResult>, v': View)
    requires Changes(v, step, decided, v') && v.row.Some? && v'.row.Some?
    ensures var from, to := v.row.value.status, v'.row.value.status;
      from == to || CanTransition(from, to) || (step.ScheduleDue? && from == Delivering && to == Pending)
    ensures v.row.value.status == Delivered ==> v'.row == v.row
  {}

  // Lease recovery is two edges at once.
  lemma RecoveryIsAPath()
    ensures !CanTransition(Delivering, Pending) && TransitionPath(Delivering, Pending)
  {
    assert CanTransition(Delivering, RetryWait) && CanTransition(RetryWait, Pending);
  }

  // `delivered` is final: the row does not change any more, it can only be deleted.
  lemma DeliveredIsFinal(s: State, steps: seq<Step>, t: State, id: TaskId)
    requires Reachable(s) && Runs(s, steps, t) && id in s.db.tasks && s.db.tasks[id].status == Delivered
    ensures id in t.db.tasks ==> t.db.tasks[id] == s.db.tasks[id]
  {
    ReachableHolds(s);
    RunIsLater(s, steps, t, id);
  }

  // ---------- crashes ----------

  // Everybody may crash at any moment, all at once if need be: the tables stay as they are, and every
  // message a worker held is queued again.
  lemma {:induction false} EverybodyMayCrash(s: State) returns (steps: seq<Step>, t: State)
    requires Inv(s)
    ensures Runs(s, steps, t) && forall step | step in steps :: step.CrashWorker? || step.StopPublisher?
    ensures t.workers == map[] && t.publishers == map[] && t.db == s.db && t.copies.Keys == s.copies.Keys
    ensures forall tag | tag in s.copies :: t.copies[tag] == Copy(s.copies[tag].message, None)
    decreases |s.workers| + |s.publishers|
  {
    if s.workers == map[] && s.publishers == map[] {
      steps, t := [], s;
      NobodyHolds(s);
    } else {
      var step := OneCrash(s);
      StepKeeps(s, step);
      var rest;
      rest, t := EverybodyMayCrash(Do(s, step));
      steps := [step] + rest;
      assert steps[1..] == rest;
    }
  }

  // A copy is held only by a session that is there.
  lemma NobodyHolds(s: State)
    requires Inv(s) && s.workers == map[]
    ensures forall tag | tag in s.copies :: s.copies[tag].holder.None?
  {}

  lemma OneCrash(s: State) returns (step: Step)
    requires s.workers != map[] || s.publishers != map[]
    ensures Enabled(s, step) && (step.CrashWorker? || step.StopPublisher?)
    ensures var t := Do(s, step);
      && t.db == s.db && |t.workers| + |t.publishers| < |s.workers| + |s.publishers|
      && t.copies.Keys == s.copies.Keys
      && forall tag | tag in s.copies :: t.copies[tag].message == s.copies[tag].message
  {
    if s.workers != map[] {
      var w :| w in s.workers;
      step := CrashWorker(w);
      OneFewer(s.workers, w);
      Released(s.copies, s.workers[w].tag, w);
    } else {
      var p :| p in s.publishers;
      step := StopPublisher(p);
      OneFewer(s.publishers, p);
    }
  }

  lemma Released(copies: map<Tag, Copy>, tag: Tag, w: Token)
    ensures Release(copies, tag, w).Keys == copies.Keys
    ensures forall other | other in copies :: Release(copies, tag, w)[other].message == copies[other].message
  {}

  lemma OneFewer<K, V>(m: map<K, V>, k: K)
    requires k in m
    ensures |m - {k}| < |m|
  {
    assert (m - {k}).Keys == m.Keys - {k};
    assert |m.Keys - {k}| < |m.Keys|;
  }
}
