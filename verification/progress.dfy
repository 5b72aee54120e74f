/** Nothing gets stuck: from every reachable state each live task has a short continuation to a
    terminal status, and the exact condition under which a waiting task can still be delivered. */
module Progress {
  import opened Wrappers
  import opened Notification
  import opened Rows
  import opened Tables
  import opened Ledgers
  import opened Protocol
  import opened Invariant
  import opened Safety
  import RetryArithmetic

  lemma {:induction false} Fresh(used: set<nat>) returns (n: nat)
    ensures forall m | m in used :: m < n
    ensures n !in used
    decreases |used|
  {
    if used == {} {
      n := 0;
    } else {
      var m :| m in used;
      var k := Fresh(used - {m});
      n := if k > m then k else m + 1;
      forall l | l in used ensures l < n {
        assert l == m || l in used - {m};
      }
    }
  }

  // The answer of a supplier that accepts.
  const ACCEPTED := SendResult(Succeeded, 200, "", "", None)

  // The lease and the outbox claim both last this long.
  const MINUTE: Duration := 60_000_000_000

  // ---------- clocks ----------

  // The clock reading a step was taken at, if it takes one. (Retention compares with a cutoff.)
  function Reading(step: Step): Option<Time> {
    match step
    case Create(_, request, _) => Some(request.createdAt)
    case ClaimOutbox(_, _, now, _, _) => Some(now)
    case MarkPublished(_, at, _) => Some(at)
    case Claim(_, _, at, _) => Some(at)
    case Apply(_, at, _, _) => Some(at)
    case ScheduleDue(now, _) => Some(now)
    case Replay(_, now, _) => Some(now)
    case _ => None
  }

  function ClockAfter(step: Step, floor: Time): Time {
    if Reading(step).Some? then Reading(step).value else floor
  }

  // The clock starts at `floor` or later and never runs backwards.
  ghost predicate Forward(steps: seq<Step>, floor: Time) {
    steps == [] || (floor <= ClockAfter(steps[0], floor) && Forward(steps[1..], ClockAfter(steps[0], floor)))
  }

  // Where it stands afterwards.
  ghost function Latest(steps: seq<Step>, floor: Time): Time {
    if steps == [] then floor else Latest(steps[1..], ClockAfter(steps[0], floor))
  }

  function Max(a: Time, b: Time): Time {
    if a < b then b else a
  }

  // ---------- jitter ----------

  // The jitter a step decides a retry with is one that the generator can draw.
  ghost predicate StepDrawn(s: State, step: Step)
    requires Enabled(s, step)
  {
    step.Apply? && s.workers[step.worker].progress.result.outcome == Retryable ==>
      var t := s.workers[step.worker].progress.snapshot;
      exists draw | RetryArithmetic.IsDraw(draw) ::
        step.jittered == RetryArithmetic.JitterValue(t.request.policy, t.attempts, draw)
  }

  ghost predicate JitterDrawn(s: State, steps: seq<Step>, t: State)
    requires Runs(s, steps, t)
    decreases |steps|
  {
    steps == [] || (StepDrawn(s, steps[0]) && JitterDrawn(Do(s, steps[0]), steps[1..], t))
  }

  // A run as it can happen from a moment at which the clocks have read `floor`.
  ghost predicate Realistic(s: State, steps: seq<Step>, t: State, floor: Time) {
    Runs(s, steps, t) && Forward(steps, floor) && JitterDrawn(s, steps, t)
  }

  lemma {:induction false} RealisticJoins(
      s: State, first: seq<Step>, t: State, second: seq<Step>, u: State, floor: Time)
    requires Realistic(s, first, t, floor) && Realistic(t, second, u, Latest(first, floor))
    ensures Realistic(s, first + second, u, floor)
    decreases |first|
  {
    if first == [] {
      assert first + second == second;
    } else {
      RealisticJoins(Do(s, first[0]), first[1..], t, second, u, ClockAfter(first[0], floor));
      assert (first + second)[1..] == first[1..] + second;
    }
  }

  // ---------- runs that deliver ----------

  ghost predicate NoReplay(steps: seq<Step>, id: TaskId) {
    forall step | step in steps :: !(step.Replay? && step.id == id)
  }

  ghost predicate DeliversBy(s: State, steps: seq<Step>, t: State, id: TaskId) {
    Runs(s, steps, t) && id in t.db.tasks && t.db.tasks[id].status == Delivered
  }

  // A realistic run without replays that ends with the task delivered.
  ghost predicate Delivery(s: State, steps: seq<Step>, t: State, id: TaskId, floor: Time) {
    Realistic(s, steps, t, floor) && DeliversBy(s, steps, t, id) && NoReplay(steps, id)
  }

  lemma OneStep(s: State, step: Step)
    requires Enabled(s, step)
    ensures Runs(s, [step], Do(s, step))
  {
    assert [step][1..] == [];
  }

  // One step, and then the rest of the run.
  lemma Prepend(s: State, step: Step, rest: seq<Step>, t: State, id: TaskId, floor: Time)
    requires Enabled(s, step) && StepDrawn(s, step)
    requires floor <= ClockAfter(step, floor) && !(step.Replay? && step.id == id)
    requires Delivery(Do(s, step), rest, t, id, ClockAfter(step, floor))
    ensures Delivery(s, [step] + rest, t, id, floor)
  {
    assert ([step] + rest)[1..] == rest;
  }

  // ---------- one call of Handle, undisturbed ----------

  // The session has got as far as `progress`, and its task is in the table with its history.
  ghost predicate At(s: State, w: Token, id: TaskId, progress: Progress) {
    w in s.workers && s.workers[w].message.task == id && s.workers[w].progress == progress
    && id in s.db.tasks && id in s.ledgers
  }

  lemma AppliedDelivers(s: State, w: Token, id: TaskId, snapshot: Task, result: SendResult, floor: Time)
    returns (steps: seq<Step>, t: State)
    requires At(s, w, id, Answer(snapshot, result)) && result.outcome == Succeeded && Owns(s.db.tasks[id], w)
    ensures Delivery(s, steps, t, id, floor) && |steps| == 1
  {
    var step := Apply(w, floor, 0, Answered);
    t := Do(s, step);
    assert DeliversBy(t, [], t, id);
    Prepend(s, step, [], t, id, floor);
    steps := [step] + [];
  }

  lemma SentDelivers(s: State, w: Token, id: TaskId, snapshot: Task, floor: Time) returns (steps: seq<Step>, t: State)
    requires At(s, w, id, Admitted(snapshot)) && Owns(s.db.tasks[id], w)
    ensures Delivery(s, steps, t, id, floor) && |steps| == 2
  {
    var step := Send(w, ACCEPTED);
    var rest;
    rest, t := AppliedDelivers(Do(s, step), w, id, snapshot, ACCEPTED, floor);
    Prepend(s, step, rest, t, id, floor);
    steps := [step] + rest;
  }

  lemma AdmittedDelivers(s: State, w: Token, id: TaskId, snapshot: Task, floor: Time)
    returns (steps: seq<Step>, t: State)
    requires At(s, w, id, Claimed(snapshot)) && Owns(s.db.tasks[id], w)
    ensures Delivery(s, steps, t, id, floor) && |steps| == 3
  {
    var step := Admit(w, true);
    var rest;
    rest, t := SentDelivers(Do(s, step), w, id, snapshot, floor);
    Prepend(s, step, rest, t, id, floor);
    steps := [step] + rest;
  }

  lemma HandleDelivers(s: State, w: Token, id: TaskId, floor: Time) returns (steps: seq<Step>, t: State)
    requires At(s, w, id, Received) && s.db.tasks[id].status == Pending
    ensures Delivery(s, steps, t, id, floor) && |steps| == 4
  {
    var step := Claim(w, floor + MINUTE, floor, Answered);
    var rest;
    rest, t := AdmittedDelivers(Do(s, step), w, id, ClaimRow(s.db.tasks[id], w, floor + MINUTE, floor), floor);
    Prepend(s, step, rest, t, id, floor);
    steps := [step] + rest;
  }

  // ---------- getting the message to a worker ----------

  lemma QueuedDelivers(s: State, tag: Tag, id: TaskId, floor: Time) returns (steps: seq<Step>, t: State)
    requires tag in s.copies && s.copies[tag].holder.None? && s.copies[tag].message.task == id
    requires id in s.ledgers && id in s.db.tasks && s.db.tasks[id].status == Pending
    ensures Delivery(s, steps, t, id, floor) && |steps| == 5
  {
    var w := Fresh(s.leases);
    var step := Receive(tag, w);
    var rest;
    rest, t := HandleDelivers(Do(s, step), w, id, floor);
    Prepend(s, step, rest, t, id, floor);
    steps := [step] + rest;
  }

  lemma RequeuedDelivers(s: State, w: Token, tag: Tag, id: TaskId, floor: Time) returns (steps: seq<Step>, t: State)
    requires tag in s.copies && s.copies[tag].holder == Some(w) && s.copies[tag].message.task == id
    requires w in s.workers && s.workers[w].tag == tag && s.workers[w].progress == Done(Requeue)
    requires id in s.ledgers && id in s.db.tasks && s.db.tasks[id].status == Pending
    ensures Delivery(s, steps, t, id, floor) && |steps| == 6
  {
    var step := Dispose(w);
    var rest;
    rest, t := QueuedDelivers(Do(s, step), tag, id, floor);
    Prepend(s, step, rest, t, id, floor);
    steps := [step] + rest;
  }

  // The holder of a copy of a still pending task's current message has not claimed yet, or is
  // about to give the copy back.
  lemma HolderOfCurrent(s: State, tag: Tag, id: TaskId)
    requires Inv(s) && tag in s.copies && id in s.db.tasks && s.db.tasks[id].status == Pending
    requires s.copies[tag].message.task == id && s.copies[tag].holder.Some? && s.copies[tag].message.event in s.born
    requires s.born[s.copies[tag].message.event].generation == s.db.tasks[id].generation
    ensures var w := s.copies[tag].holder.value;
            && w in s.workers && s.workers[w].tag == tag && s.workers[w].message.task == id
            && (s.workers[w].progress == Received || s.workers[w].progress == Done(Requeue))
  {
    var w := s.copies[tag].holder.value;
    assert w in s.workers && s.workers[w].tag == tag && s.workers[w].message == s.copies[tag].message;
    ReadyForCurrent(w, s.workers[w].progress, s.db.tasks[id], s.ledgers[id]);
  }

  lemma ReadyForCurrent(w: Token, progress: Progress, row: Task, l: Ledger)
    requires WorkerOk(w, progress, Some(row), l, row.generation) && row.status == Pending && TaskOk(row, l)
    ensures progress == Received || progress == Done(Requeue)
  {}

  lemma CopyDelivers(s: State, tag: Tag, id: TaskId, floor: Time) returns (steps: seq<Step>, t: State)
    requires id in s.ledgers && id in s.db.tasks && s.db.tasks[id].status == Pending
    requires tag in s.copies && s.copies[tag].message.task == id
    requires s.copies[tag].holder.Some? ==>
      var w := s.copies[tag].holder.value;
      && w in s.workers && s.workers[w].tag == tag && s.workers[w].message.task == id
      && (s.workers[w].progress == Received || s.workers[w].progress == Done(Requeue))
    ensures Delivery(s, steps, t, id, floor) && |steps| <= 6
  {
    if s.copies[tag].holder.None? {
      steps, t := QueuedDelivers(s, tag, id, floor);
    } else if s.workers[s.copies[tag].holder.value].progress == Received {
      steps, t := HandleDelivers(s, s.copies[tag].holder.value, id, floor);
    } else {
      steps, t := RequeuedDelivers(s, s.copies[tag].holder.value, tag, id, floor);
    }
  }

  lemma PublishedDelivers(s: State, p: Token, m: Message, floor: Time) returns (steps: seq<Step>, t: State)
    requires p in s.publishers && s.publishers[p] == Publisher([m], 0, false, 0)
    requires m.task in s.ledgers && m.task in s.db.tasks && s.db.tasks[m.task].status == Pending
    ensures Delivery(s, steps, t, m.task, floor) && |steps| == 6
  {
    var tag := Fresh(s.copies.Keys);
    var step := Publish(p, tag, true, true);
    var rest;
    rest, t := QueuedDelivers(Do(s, step), tag, m.task, floor);
    Prepend(s, step, rest, t, m.task, floor);
    steps := [step] + rest;
  }

  lemma ClaimedBatch(s: State, p: Token, e: EventId, now: Time)
    requires e in s.db.events && Claimable(s.db.events[e], now) && p !in s.claims
    ensures Enabled(s, Step.ClaimOutbox(p, [e], now, now + MINUTE, Answered))
    ensures var t := DoClaimOutbox(s, p, [e], now + MINUTE, Answered);
      && t == s.(db := t.db, publishers := t.publishers, claims := t.claims) && t.db.tasks == s.db.tasks
      && p in t.publishers && t.publishers[p] == Publisher([Message(e, s.db.events[e].aggregate)], 0, false, 0)
  {
    var t := DoClaimOutbox(s, p, [e], now + MINUTE, Answered);
    assert t.publishers[p].batch == [Message(e, s.db.events[e].aggregate)];
  }

  lemma UnpublishedDelivers(s: State, e: EventId, id: TaskId, floor: Time) returns (steps: seq<Step>, t: State)
    requires e in s.db.events && s.db.events[e].publishedAt.None? && s.db.events[e].aggregate == id
    requires id in s.ledgers && id in s.db.tasks && s.db.tasks[id].status == Pending
    ensures Delivery(s, steps, t, id, floor) && |steps| == 7
  {
    var p := Fresh(s.claims);
    var now := if s.db.events[e].claimUntil.Some? then Max(s.db.events[e].claimUntil.value + 1, floor) else floor;
    var step := Step.ClaimOutbox(p, [e], now, now + MINUTE, Answered);
    ClaimedBatch(s, p, e, now);
    var rest;
    rest, t := PublishedDelivers(Do(s, step), p, Message(e, id), now);
    Prepend(s, step, rest, t, id, floor);
    steps := [step] + rest;
  }

  // The current event of a pending task, and where its message is.
  lemma CurrentEvent(s: State, id: TaskId) returns (e: EventId, tag: Tag)
    requires Inv(s) && id in s.db.tasks && s.db.tasks[id].status == Pending
    ensures id in s.ledgers && e in s.db.events && s.db.events[e].aggregate == id
    ensures s.db.events[e].generation == s.db.tasks[id].generation
    ensures s.db.events[e].publishedAt.Some? ==>
      tag in s.copies && s.copies[tag].message == Message(e, id) && e in s.born
      && s.born[e].generation == s.db.tasks[id].generation
  {
    var slot := Slot(id, s.db.tasks[id].generation);
    e, tag := s.slots[slot], 0;
    assert e in s.db.events && s.born[e] == slot && EventOk(e, s.db.events[e], s.born, s.enqueued);
    if s.db.events[e].publishedAt.Some? {
      assert HasCopy(s.copies, e);
      tag :| tag in s.copies && s.copies[tag].message.event == e;
      assert MessageOk(s.copies[tag].message, s.born);
    }
  }

  // A pending task can be delivered: nothing that happened before can have lost its message.
  lemma PendingDelivers(s: State, id: TaskId, floor: Time) returns (steps: seq<Step>, t: State)
    requires Inv(s) && id in s.db.tasks && s.db.tasks[id].status == Pending
    ensures Delivery(s, steps, t, id, floor) && |steps| <= 7
  {
    var e, tag := CurrentEvent(s, id);
    if s.db.events[e].publishedAt.None? {
      steps, t := UnpublishedDelivers(s, e, id, floor);
    } else {
      if s.copies[tag].holder.Some? {
        HolderOfCurrent(s, tag, id);
      }
      steps, t := CopyDelivers(s, tag, id, floor);
    }
  }

  // ---------- waiting and leased tasks ----------

  // The first moment the scheduler may pick the row up.
  function DueAt(t: Task): Time
    requires Shaped(t) && (t.status == RetryWait || t.status == Delivering)
  {
    if t.status == RetryWait then t.nextAttemptAt.value else t.leaseUntil.value + 1
  }

  lemma ScheduleNow(s: State, id: TaskId, now: Time) returns (t: State)
    requires Inv(s) && id in s.db.tasks && Due(s.db.tasks[id], now)
    ensures Enabled(s, ScheduleDue(now, [id])) && t == Do(s, ScheduleDue(now, [id])) && Inv(t)
    ensures id in t.db.tasks && t.db.tasks[id] == ScheduleRow(s.db.tasks[id], now)
  {
    assert id in s.ledgers;
    t := Do(s, ScheduleDue(now, [id]));
    StepKeeps(s, ScheduleDue(now, [id]));
    ScheduleTurn(s, [id], now, id);
    assert Of(t, id).row == Some(ScheduleRow(s.db.tasks[id], now));
  }

  // Picked up in time, a waiting or leased task can still be delivered.
  lemma RescheduledDelivers(s: State, id: TaskId, now: Time, floor: Time) returns (steps: seq<Step>, t: State)
    requires Inv(s) && id in s.db.tasks && Due(s.db.tasks[id], now) && !Exhausted(s.db.tasks[id], now) && floor <= now
    ensures Delivery(s, steps, t, id, floor) && |steps| <= 8
  {
    var mid := ScheduleNow(s, id, now);
    var rest;
    rest, t := PendingDelivers(mid, id, now);
    Prepend(s, ScheduleDue(now, [id]), rest, t, id, floor);
    steps := [ScheduleDue(now, [id])] + rest;
  }

  lemma ShapeOf(s: State, id: TaskId)
    requires Inv(s) && id in s.db.tasks
    ensures id in s.ledgers && Shaped(s.db.tasks[id])
    ensures s.db.tasks[id].status == RetryWait ==> s.db.tasks[id].attempts < s.db.tasks[id].request.policy.maxAttempts
  {
    assert TaskOk(s.db.tasks[id], s.ledgers[id]);
  }

  // A realistic run without replays after which the task is terminal.
  ghost predicate Finish(s: State, steps: seq<Step>, t: State, id: TaskId, floor: Time) {
    && Realistic(s, steps, t, floor) && NoReplay(steps, id)
    && id in t.db.tasks && Terminal(t.db.tasks[id].status)
  }

  lemma CanFinish(s: State, id: TaskId, floor: Time) returns (steps: seq<Step>, t: State)
    requires Inv(s) && id in s.db.tasks
    ensures Finish(s, steps, t, id, floor) && |steps| <= 8
  {
    ShapeOf(s, id);
    if Terminal(s.db.tasks[id].status) {
      steps, t := [], s;
    } else if s.db.tasks[id].status == Pending {
      steps, t := PendingDelivers(s, id, floor);
    } else {
      steps, t := DueFinishes(s, id, floor);
    }
  }

  lemma DueFinishes(s: State, id: TaskId, floor: Time) returns (steps: seq<Step>, t: State)
    requires Inv(s) && id in s.db.tasks && Shaped(s.db.tasks[id])
    requires s.db.tasks[id].status == RetryWait || s.db.tasks[id].status == Delivering
    ensures Finish(s, steps, t, id, floor) && |steps| <= 8
  {
    var row := s.db.tasks[id];
    var now := Max(DueAt(row), floor);
    if Exhausted(row, now) {
      steps, t := ExhaustedDies(s, id, now, floor);
    } else {
      steps, t := RescheduledDelivers(s, id, now, floor);
    }
  }

  lemma ExhaustedDies(s: State, id: TaskId, now: Time, floor: Time) returns (steps: seq<Step>, t: State)
    requires Inv(s) && id in s.db.tasks && Due(s.db.tasks[id], now) && Exhausted(s.db.tasks[id], now) && floor <= now
    ensures Finish(s, steps, t, id, floor) && |steps| == 1
  {
    t := ScheduleNow(s, id, now);
    steps := [ScheduleDue(now, [id])];
    OneStep(s, ScheduleDue(now, [id]));
    OneReading(ScheduleDue(now, [id]), id, floor);
    assert ScheduleRow(s.db.tasks[id], now) == DeadRow(s.db.tasks[id], now);
  }

  lemma OneReading(step: Step, id: TaskId, floor: Time)
    requires floor <= ClockAfter(step, floor) && !(step.Replay? && step.id == id)
    ensures Forward([step], floor) && NoReplay([step], id)
  {
    assert [step][1..] == [];
  }

  // From every reachable state, and whatever its clocks have read so far, each live task is at most
  // eight steps, none of them a replay, from `delivered` or `dead`.
  lemma EveryTaskCanFinish(s: State, id: TaskId, floor: Time)
    requires Reachable(s) && id in s.db.tasks
    ensures exists steps, t :: Finish(s, steps, t, id, floor) && |steps| <= 8
  {
    ReachableHolds(s);
    var steps, t := CanFinish(s, id, floor);
  }

  // With an operator's help even a dead task can still be delivered: no accepted task is lost.
  lemma EveryTaskCanBeDelivered(s: State, id: TaskId, floor: Time)
    requires Reachable(s) && id in s.db.tasks
    ensures exists steps, t :: DeliversBy(s, steps, t, id) && Realistic(s, steps, t, floor) && |steps| <= 16
  {
    ReachableHolds(s);
    var first, mid := CanFinish(s, id, floor);
    if mid.db.tasks[id].status == Delivered {
      assert DeliversBy(s, first, mid, id);
    } else {
      var steps, t := ReplayedDelivers(s, first, mid, id, floor);
      assert DeliversBy(s, steps, t, id);
    }
  }

  lemma ReplayedDelivers(s: State, first: seq<Step>, mid: State, id: TaskId, floor: Time)
    returns (steps: seq<Step>, t: State)
    requires Inv(s) && Realistic(s, first, mid, floor)
    requires id in mid.db.tasks && mid.db.tasks[id].status == Dead
    ensures DeliversBy(s, steps, t, id) && Realistic(s, steps, t, floor) && |steps| <= |first| + 8
  {
    RunKeeps(s, first, mid);
    var second;
    second, t := DeadDelivers(mid, id, Latest(first, floor));
    RealisticJoins(s, first, mid, second, t, floor);
    steps := first + second;
  }

  lemma FreshDrawn(born: map<EventId, Slot>) returns (e: EventId)
    ensures e.Drawn? && e !in born
  {
    var ids := set f | f in born && f.Drawn? :: f.id;
    var n := Fresh(ids);
    e := Drawn(n);
    assert forall f | f in born && f.Drawn? :: f.id in ids;
  }

  lemma DeadDelivers(s: State, id: TaskId, floor: Time) returns (steps: seq<Step>, t: State)
    requires Inv(s) && id in s.db.tasks && s.db.tasks[id].status == Dead
    ensures DeliversBy(s, steps, t, id) && Realistic(s, steps, t, floor) && |steps| <= 8
  {
    var e := FreshDrawn(s.born);
    assert id in s.ledgers;
    var replay := Replay(id, floor, e);
    StepKeeps(s, replay);
    var rest;
    rest, t := PendingDelivers(Do(s, replay), id, floor);
    steps := [replay] + rest;
    assert steps[1..] == rest;
  }

  // ---------- a waiting task: when can it still be delivered? ----------

  // A task that only a replay can save once the clock has reached `floor`: dead, deleted, or still
  // waiting although its own deadline, or its retry time's distance to it, has been used up.
  ghost predicate Doomed(row: Option<Task>, floor: Time) {
    row.Some? ==>
      || row.value.status == Dead
      || (row.value.status == RetryWait && row.value.nextAttemptAt.Some?
          && Max(row.value.nextAttemptAt.value, floor) >= row.value.request.Deadline())
  }

  // Doom stays as long as no clock runs backwards.
  lemma {:induction false} DoomStays(s: State, steps: seq<Step>, t: State, id: TaskId, floor: Time)
    requires Inv(s) && Runs(s, steps, t) && id in s.ledgers && Doomed(Row(s.db.tasks, id), floor)
    requires NoReplay(steps, id) && Forward(steps, floor)
    ensures Doomed(Row(t.db.tasks, id), Latest(steps, floor))
    decreases |steps|
  {
    if steps == [] {
    } else {
      assert steps[0] in steps;
      DoomStep(s, steps[0], id, floor);
      StepKeeps(s, steps[0]);
      DoomStays(Do(s, steps[0]), steps[1..], t, id, ClockAfter(steps[0], floor));
    }
  }

  lemma DoomStep(s: State, step: Step, id: TaskId, floor: Time)
    requires Inv(s) && Enabled(s, step) && id in s.ledgers && Doomed(Row(s.db.tasks, id), floor)
    requires !(step.Replay? && step.id == id) && floor <= ClockAfter(step, floor)
    ensures Doomed(Row(Do(s, step).db.tasks, id), ClockAfter(step, floor)) && id in Do(s, step).ledgers
  {
    if step.Replay? {
      ReplayElsewhere(s, step.id, step.now, step.event, id);
    } else {
      StepChanges(s, step, id);
      DoomChange(Of(s, id), step, Decided(s, step), Of(Do(s, step), id), floor);
    }
  }

  lemma ReplayElsewhere(s: State, i: TaskId, now: Time, event: EventId, id: TaskId)
    requires i != id
    ensures Of(DoReplay(s, i, now, event), id) == Of(s, id)
  {}

  lemma DoomChange(v: View, step: Step, decided: Option<AttemptResult>, v': View, floor: Time)
    requires Changes(v, step, decided, v') && v.ledger.Some? && Doomed(v.row, floor) && !step.Replay?
    requires floor <= ClockAfter(step, floor)
    ensures Doomed(v'.row, ClockAfter(step, floor)) && v'.ledger.Some?
  {}

  // A waiting task can be delivered without a replay, by clocks that have read `floor` and go
  // forward and a jitter that can be drawn, if and only if both its retry time and `floor` lie
  // before its deadline: the scheduler must get to it in between. The retry decision alone does
  // not see to either.
  lemma WaitingCanBeDelivered(s: State, id: TaskId, floor: Time)
    requires Reachable(s) && id in s.db.tasks && s.db.tasks[id].status == RetryWait
    ensures s.db.tasks[id].nextAttemptAt.Some?
    ensures (exists steps, t :: Delivery(s, steps, t, id, floor))
      <==> Max(s.db.tasks[id].nextAttemptAt.value, floor) < s.db.tasks[id].request.Deadline()
  {
    ReachableHolds(s);
    ShapeOf(s, id);
    var row := s.db.tasks[id];
    if Max(row.nextAttemptAt.value, floor) < row.request.Deadline() {
      var steps, t := RescheduledDelivers(s, id, Max(DueAt(row), floor), floor);
    } else {
      forall steps, t | Delivery(s, steps, t, id, floor) ensures false {
        DoomStays(s, steps, t, id, floor);
      }
    }
  }

  // ---------- a first run ----------

  const FIRST_REQUEST := Request("caller", "key", "hash", "destination", 1, RetryPolicy(1, 1, []), 0)
  const FIRST_CREATE := Step.Create(0, FIRST_REQUEST, Drawn(0))
  const FIRST_CLAIM := Step.ClaimOutbox(0, [Drawn(0)], 0, MINUTE, Answered)

  // From the empty database: a task is created and its event claimed.
  lemma FirstEventClaimed() returns (mid: State, t: State)
    ensures Enabled(Init(), FIRST_CREATE) && mid == Do(Init(), FIRST_CREATE)
    ensures Enabled(mid, FIRST_CLAIM) && t == Do(mid, FIRST_CLAIM)
    ensures t.copies == map[] && t.workers == map[]
    ensures 0 in t.ledgers && 0 in t.db.tasks && t.db.tasks[0].status == Pending
    ensures t.db.events.Keys == {Drawn(0)} && MarkMatches(t.db.events[Drawn(0)], 0)
    ensures t.publishers == map[0 := Publisher([Message(Drawn(0), 0)], 0, false, 0)]
  {
    mid := Do(Init(), FIRST_CREATE);
    t := Do(mid, FIRST_CLAIM);
    assert t.publishers[0].batch == [Message(Drawn(0), 0)];
  }
}
