/** A broker that drops messages. The queue is declared as a quorum queue without a delivery limit
    of its own (internal/messaging/rabbitmq/topology.go), and RabbitMQ 4 then drops a message once it
    has been returned more than twenty times. Exactly which drops break dispatch coverage, what they
    cost, and that a short outage of the database brings them about. */
module Drops {
  import opened Wrappers
  import opened Notification
  import opened Rows
  import opened Tables
  import opened Ledgers
  import opened Protocol
  import opened Invariant
  import opened Progress
  import Sequences

  const DELIVERY_LIMIT := 20

  // The protocol's state, and how often each copy has been returned to the queue.
  datatype Broker = Broker(state: State, requeues: map<Tag, nat>)

  datatype Event = Took(step: Step) | Dropped(tag: Tag)

  function Requeues(requeues: map<Tag, nat>, tag: Tag): nat {
    if tag in requeues then requeues[tag] else 0
  }

  // The counts after a step: one more for every copy that went from a session back to the queue.
  function RequeuesAfter(requeues: map<Tag, nat>, before: map<Tag, Copy>, after: map<Tag, Copy>): map<Tag, nat> {
    map tag | tag in after ::
      if tag !in before then 0
      else Requeues(requeues, tag) + if before[tag].holder.Some? && after[tag].holder.None? then 1 else 0
  }

  // Only a queued copy is dropped, and only one that has been returned too often.
  ghost predicate Possible(b: Broker, event: Event) {
    match event
    case Took(step) => Enabled(b.state, step)
    case Dropped(tag) =>
      tag in b.state.copies && b.state.copies[tag].holder.None? && Requeues(b.requeues, tag) > DELIVERY_LIMIT
  }

  ghost function Drop(s: State, tag: Tag): State {
    s.(copies := s.copies - {tag})
  }

  ghost function Happens(b: Broker, event: Event): Broker
    requires Possible(b, event)
  {
    match event
    case Took(step) =>
      Broker(Do(b.state, step), RequeuesAfter(b.requeues, b.state.copies, Do(b.state, step).copies))
    case Dropped(tag) => Broker(Drop(b.state, tag), b.requeues - {tag})
  }

  ghost predicate LossyRuns(b: Broker, events: seq<Event>, c: Broker)
    decreases |events|
  {
    if events == [] then b == c
    else Possible(b, events[0]) && LossyRuns(Happens(b, events[0]), events[1..], c)
  }

  lemma {:induction false} LossyJoins(b: Broker, first: seq<Event>, c: Broker, second: seq<Event>, d: Broker)
    requires LossyRuns(b, first, c) && LossyRuns(c, second, d)
    ensures LossyRuns(b, first + second, d)
    decreases |first|
  {
    if first == [] {
      assert first + second == second;
    } else {
      LossyJoins(Happens(b, first[0]), first[1..], c, second, d);
      LossyFirst(b, first[0], first[1..] + second, d);
      Sequences.HeadFirst(first, second);
    }
  }

  lemma LossyFirst(b: Broker, event: Event, rest: seq<Event>, c: Broker)
    requires Possible(b, event) && LossyRuns(Happens(b, event), rest, c)
    ensures LossyRuns(b, [event] + rest, c)
  {
    assert ([event] + rest)[1..] == rest;
  }

  // ---------- coverage, and what must not be dropped ----------

  // Every pending task's current event is still to be published, or the broker has a copy of it.
  ghost predicate Covers(s: State, id: TaskId) {
    id in s.db.tasks && s.db.tasks[id].status == Pending ==>
      exists e | e in s.db.events ::
        && s.db.events[e].aggregate == id && s.db.events[e].generation == s.db.tasks[id].generation
        && (s.db.events[e].publishedAt.None? || exists tag | tag in s.copies :: s.copies[tag].message == Message(e, id))
  }

  ghost predicate Coverage(s: State) {
    forall id :: Covers(s, id)
  }

  // The events the broker must not lose: the published ones, and those whose confirmed publish is
  // about to be marked.
  ghost function Owed(s: State): set<EventId> {
    (set e | e in s.db.events && s.db.events[e].publishedAt.Some?)
    + (set p | p in s.publishers && AboutToMark(p, s.publishers[p], s.db.events) ::
         s.publishers[p].batch[s.publishers[p].next].event)
  }

  ghost function Carried(copies: map<Tag, Copy>): set<EventId> {
    set tag | tag in copies :: copies[tag].message.event
  }

  // The invariant, with what the broker has ever taken reduced to what still matters. No step
  // reads that history.
  ghost predicate Sound(s: State) {
    Inv(s.(enqueued := Owed(s) + Carried(s.copies)))
  }

  // A drop is bearable if the event is not owed, its generation is over, or another copy is left.
  ghost predicate Bearable(s: State, tag: Tag)
    requires tag in s.copies
  {
    var e := s.copies[tag].message.event;
    || HasCopy(s.copies - {tag}, e)
    || e !in Owed(s)
    || (e in s.born && Settled(Row(s.db.tasks, s.born[e].task), s.born[e].generation))
  }

  // Reducing the history of an invariant state to anything between what matters and all of it
  // keeps the invariant.
  lemma HistoryReduces(s: State, q: set<EventId>)
    requires Inv(s) && Owed(s) + Carried(s.copies) <= q <= s.enqueued
    ensures Inv(s.(enqueued := q))
  {
    forall e | e in s.db.events ensures EventOk(e, s.db.events[e], s.born, q) {
      assert EventOk(e, s.db.events[e], s.born, s.enqueued);
    }
    forall tag | tag in s.copies ensures s.copies[tag].message.event in q {
      assert s.copies[tag].message.event in Carried(s.copies);
    }
  }

  lemma NeededIsKnown(s: State)
    requires Inv(s)
    ensures Owed(s) + Carried(s.copies) <= s.enqueued
  {
    forall e | e in s.db.events && s.db.events[e].publishedAt.Some? ensures e in s.enqueued {
      assert EventOk(e, s.db.events[e], s.born, s.enqueued);
    }
  }

  lemma InvIsSound(s: State)
    requires Inv(s)
    ensures Sound(s)
  {
    NeededIsKnown(s);
    HistoryReduces(s, Owed(s) + Carried(s.copies));
  }

  // Steps do not depend on the history of the broker.
  lemma {:induction false} ScheduleBlind(s: State, q: set<EventId>, rows: seq<TaskId>, now: Time)
    ensures DoSchedule(s.(enqueued := q), rows, now) == DoSchedule(s, rows, now).(enqueued := q)
  {
    if rows == [] {
    } else {
      ScheduleBlind(s, q, rows[..|rows| - 1], now);
      ScheduleOneBlind(DoSchedule(s, rows[..|rows| - 1], now), q, rows[|rows| - 1], now);
    }
  }

  lemma ScheduleOneBlind(s: State, q: set<EventId>, id: TaskId, now: Time)
    ensures DoScheduleOne(s.(enqueued := q), id, now) == DoScheduleOne(s, id, now).(enqueued := q)
  {
    if id in s.db.tasks && id in s.ledgers {
      var t := s.db.tasks[id];
      var row, l := ScheduleRow(t, now), Scheduled(s.ledgers[id], t);
      RowBlind(s, q, id, row, l);
      BirthBlind(WithRow(s, id, row, l), q, Digest(id, t.generation + 1), id, t.generation + 1, now);
    }
  }

  lemma RowBlind(s: State, q: set<EventId>, id: TaskId, row: Task, l: Ledger)
    ensures WithRow(s.(enqueued := q), id, row, l) == WithRow(s, id, row, l).(enqueued := q)
  {}

  lemma BirthBlind(s: State, q: set<EventId>, event: EventId, id: TaskId, g: nat, at: Time)
    ensures WithBirth(s.(enqueued := q), event, id, g, at) == WithBirth(s, event, id, g, at).(enqueued := q)
  {}

  // `a` and `b` differ in the history of the broker only.
  ghost predicate Alike(a: State, b: State) {
    a.(enqueued := {}) == b.(enqueued := {})
  }

  lemma SessionBlind(s: State, q: set<EventId>, step: Step)
    requires Enabled(s, step) && (BrokerStep(step) || HandleStep(step))
    ensures Enabled(s.(enqueued := q), step) && Do(s.(enqueued := q), step) == Do(s, step).(enqueued := q)
  {
    if step.Claim? {
      ClaimBlind(s, q, step.worker, step.until, step.at, step.fault);
    } else if step.Apply? {
      ApplyBlind(s, q, step.worker, step.completedAt, step.jittered, step.fault);
    } else if BrokerStep(step) {
      BrokerBlind(s, q, step);
    } else {
      SendBlind(s, q, step);
    }
  }

  lemma BrokerBlind(s: State, q: set<EventId>, step: Step)
    requires Enabled(s, step) && BrokerStep(step)
    ensures Enabled(s.(enqueued := q), step) && Do(s.(enqueued := q), step) == Do(s, step).(enqueued := q)
  {}

  lemma SendBlind(s: State, q: set<EventId>, step: Step)
    requires Enabled(s, step) && (step.Admit? || step.Send?)
    ensures Enabled(s.(enqueued := q), step) && Do(s.(enqueued := q), step) == Do(s, step).(enqueued := q)
  {}

  lemma ClaimBlind(s: State, q: set<EventId>, w: Token, until: Time, at: Time, fault: Fault)
    requires w in s.workers
    ensures DoClaim(s.(enqueued := q), w, until, at, fault) == DoClaim(s, w, until, at, fault).(enqueued := q)
  {
    var id, after := s.workers[w].message.task, s;
    if id in s.db.tasks && s.db.tasks[id].status == Pending && fault != Fault.Lost && id in s.ledgers {
      var row, l := ClaimRow(s.db.tasks[id], w, until, at), Granted(s.ledgers[id], w);
      RowBlind(s, q, id, row, l);
      after := WithRow(s, id, row, l);
    }
    AdvanceBlind(after, q, w,
      if fault != Answered then Done(Requeue)
      else if id in s.db.tasks && s.db.tasks[id].status == Pending
      then Claimed(ClaimRow(s.db.tasks[id], w, until, at))
      else Done(Ack));
  }

  lemma AdvanceBlind(s: State, q: set<EventId>, w: Token, progress: Protocol.Progress)
    requires w in s.workers
    ensures Advance(s.(enqueued := q), w, progress) == Advance(s, w, progress).(enqueued := q)
  {}

  lemma ApplyBlind(s: State, q: set<EventId>, w: Token, at: Time, jittered: Duration, fault: Fault)
    requires w in s.workers && s.workers[w].progress.Answer?
    ensures DoApply(s.(enqueued := q), w, at, jittered, fault) == DoApply(s, w, at, jittered, fault).(enqueued := q)
  {
    var id, after, r := s.workers[w].message.task, s, Decision(s.workers[w], at, jittered);
    if fault != Fault.Lost && id in s.db.tasks && Owns(s.db.tasks[id], w) && id in s.ledgers {
      var row, l := ApplyRow(s.db.tasks[id], r), Applied(s.ledgers[id], w, r.outcome);
      RowBlind(s, q, id, row, l);
      after := WithRow(s, id, row, l);
    }
    AdvanceBlind(after, q, w, Done(if fault == Answered then Ack else Requeue));
  }

  lemma TableBlind(s: State, q: set<EventId>, step: Step)
    requires Enabled(s, step) && (step.Create? || step.ScheduleDue? || step.Replay? || step.DeleteTerminal?)
    ensures Enabled(s.(enqueued := q), step) && Do(s.(enqueued := q), step) == Do(s, step).(enqueued := q)
  {
    match step
    case Create(id, request, event) => CreateBlind(s, q, id, request, event);
    case ScheduleDue(now, rows) => ScheduleBlind(s, q, rows, now);
    case Replay(id, now, event) => ReplayBlind(s, q, id, now, event);
    case DeleteTerminal(cutoff, doomed) =>
  }

  lemma CreateBlind(s: State, q: set<EventId>, id: TaskId, request: Request, event: EventId)
    ensures DoCreate(s.(enqueued := q), id, request, event) == DoCreate(s, id, request, event).(enqueued := q)
  {
    if !KeyTaken(s.db, request) {
      var row, l := NewTask(request), NewLedger(request);
      RowBlind(s, q, id, row, l);
      BirthBlind(WithRow(s, id, row, l), q, event, id, 0, request.createdAt);
    }
  }

  lemma ReplayBlind(s: State, q: set<EventId>, id: TaskId, now: Time, event: EventId)
    ensures DoReplay(s.(enqueued := q), id, now, event) == DoReplay(s, id, now, event).(enqueued := q)
  {
    if id in s.db.tasks && s.db.tasks[id].status == Dead && id in s.ledgers {
      var row, l := ReplayRow(s.db.tasks[id], now), Replayed(s.ledgers[id]);
      RowBlind(s, q, id, row, l);
      BirthBlind(WithRow(s, id, row, l), q, event, id, row.generation, now);
    }
  }

  lemma PublisherBlind(s: State, q: set<EventId>, step: Step)
    requires Enabled(s, step)
    requires step.ClaimOutbox? || step.Publish? || step.MarkPublished? || step.StopPublisher?
    ensures Enabled(s.(enqueued := q), step) && Alike(Do(s.(enqueued := q), step), Do(s, step))
  {}

  lemma StepBlind(s: State, q: set<EventId>, step: Step)
    requires Enabled(s, step)
    ensures Enabled(s.(enqueued := q), step) && Alike(Do(s.(enqueued := q), step), Do(s, step))
  {
    if BrokerStep(step) || HandleStep(step) {
      SessionBlind(s, q, step);
    } else if step.ClaimOutbox? || step.Publish? || step.MarkPublished? || step.StopPublisher? {
      PublisherBlind(s, q, step);
    } else {
      TableBlind(s, q, step);
    }
  }

  lemma AlikeSound(a: State, b: State)
    requires Alike(a, b)
    ensures Owed(a) == Owed(b) && (Sound(a) <==> Sound(b))
  {
    assert a.(enqueued := Owed(a) + Carried(a.copies)) == b.(enqueued := Owed(b) + Carried(b.copies));
  }

  lemma StepSound(s: State, step: Step)
    requires Sound(s) && Enabled(s, step)
    ensures Sound(Do(s, step))
  {
    var q := Owed(s) + Carried(s.copies);
    StepBlind(s, q, step);
    StepKeeps(s.(enqueued := q), step);
    InvIsSound(Do(s.(enqueued := q), step));
    AlikeSound(Do(s.(enqueued := q), step), Do(s, step));
  }

  lemma {:induction false} RunSound(s: State, steps: seq<Step>, t: State)
    requires Sound(s) && Runs(s, steps, t)
    ensures Sound(t)
    decreases |steps|
  {
    if steps == [] {
    } else {
      StepSound(s, steps[0]);
      RunSound(Do(s, steps[0]), steps[1..], t);
    }
  }

  lemma SoundCovers(s: State)
    requires Sound(s)
    ensures Coverage(s)
  {
    var q := s.(enqueued := Owed(s) + Carried(s.copies));
    forall id ensures Covers(s, id) {
      if id in s.db.tasks && s.db.tasks[id].status == Pending {
        var e, tag := CurrentEvent(q, id);
        assert q.db == s.db && q.copies == s.copies;
      }
    }
  }

  // ---------- exactly which drops break coverage ----------

  // The task's event for its current, pending generation is published and has no copy.
  lemma Uncovered(s: State, id: TaskId, e: EventId)
    requires id in s.db.tasks && s.db.tasks[id].status == Pending
    requires e in s.db.events && s.db.events[e].publishedAt.Some? && !HasCopy(s.copies, e)
    requires forall f | f in s.db.events && s.db.events[f].aggregate == id
      && s.db.events[f].generation == s.db.tasks[id].generation :: f == e
    ensures !Covers(s, id)
  {}

  // An event whose generation is not over is its pending task's only current one.
  lemma CurrentIsUnique(s: State, e: EventId)
    requires Sound(s) && e in s.born && e in s.db.events
    requires !Settled(Row(s.db.tasks, s.born[e].task), s.born[e].generation)
    ensures var id := s.born[e].task;
      && id in s.db.tasks && s.db.tasks[id].status == Pending
      && forall f | f in s.db.events && s.db.events[f].aggregate == id
           && s.db.events[f].generation == s.db.tasks[id].generation :: f == e
  {
    var q, id := Owed(s) + Carried(s.copies), s.born[e].task;
    assert s.db.tasks[id].generation == s.born[e].generation;
    forall f | f in s.db.events && s.db.events[f].aggregate == id
      && s.db.events[f].generation == s.db.tasks[id].generation ensures f == e
    {
      assert EventOk(f, s.db.events[f], s.born, q);
      assert s.slots[s.born[f]] == f && s.slots[s.born[e]] == e;
    }
  }

  lemma DropCovered(s: State, tag: Tag, q: set<EventId>)
    requires tag in s.copies && Bearable(s, tag) && q == Owed(s) + Carried(s.copies - {tag})
    requires Covered(s.db.tasks, s.born, Owed(s) + Carried(s.copies), s.copies)
    ensures Covered(s.db.tasks, s.born, q, s.copies - {tag})
  {
    var copies, lost := s.copies - {tag}, s.copies[tag].message.event;
    forall e | e in Carried(copies) ensures HasCopy(copies, e) {
      var known :| known in copies && copies[known].message.event == e;
    }
    forall e | HasCopy(s.copies, e) && e != lost ensures HasCopy(copies, e) {
      var known :| known in s.copies && s.copies[known].message.event == e;
      assert known in copies && copies[known].message.event == e;
    }
  }

  lemma BearableIsSound(s: State, tag: Tag)
    requires Sound(s) && tag in s.copies && Bearable(s, tag)
    ensures Sound(Drop(s, tag))
  {
    var t := Drop(s, tag);
    var q, q' := Owed(s) + Carried(s.copies), Owed(t) + Carried(t.copies);
    assert Owed(t) == Owed(s);
    DropCovered(s, tag, q');
    EventsWith(s, q, q');
    CopiesWith(s, tag, q, q');
    ConfirmsWith(s, q');
  }

  // The clauses of the invariant that look at the history, with another one.

  lemma EventsWith(s: State, q: set<EventId>, q': set<EventId>)
    requires EventsOk(s.db, s.born, s.slots, q) && Owed(s) <= q'
    ensures EventsOk(s.db, s.born, s.slots, q')
  {
    forall e | e in s.db.events ensures EventOk(e, s.db.events[e], s.born, q') {
      assert EventOk(e, s.db.events[e], s.born, q);
    }
  }

  lemma CopiesWith(s: State, tag: Tag, q: set<EventId>, q': set<EventId>)
    requires CopiesOk(s.copies, s.workers, s.born, q) && Carried(s.copies - {tag}) <= q'
    ensures CopiesOk(s.copies - {tag}, s.workers, s.born, q')
  {
    var copies := s.copies - {tag};
    forall c | c in copies ensures copies[c].message.event in q' {
      assert copies[c].message.event in Carried(copies);
    }
  }

  lemma ConfirmsWith(s: State, q: set<EventId>)
    requires Owed(s) <= q
    ensures ConfirmsOk(s.publishers, s.db.events, q)
  {
    forall p | p in s.publishers && AboutToMark(p, s.publishers[p], s.db.events)
      ensures s.publishers[p].batch[s.publishers[p].next].event in q
    {
      assert s.publishers[p].batch[s.publishers[p].next].event in Owed(s);
    }
  }

  // After an unbearable drop the task is uncovered: at once, or as soon as the pending mark is set.
  lemma UnbearableUncovers(s: State, tag: Tag) returns (steps: seq<Step>, t: State)
    requires Sound(s) && tag in s.copies && !Bearable(s, tag)
    ensures Runs(Drop(s, tag), steps, t) && !Coverage(t)
  {
    var e := s.copies[tag].message.event;
    var id := s.born[e].task;
    CurrentIsUnique(s, e);
    if s.db.events[e].publishedAt.Some? {
      steps, t := [], Drop(s, tag);
      Uncovered(t, id, e);
    } else {
      var p :| p in s.publishers && AboutToMark(p, s.publishers[p], s.db.events)
        && s.publishers[p].batch[s.publishers[p].next].event == e;
      steps, t := MarkUncovers(Drop(s, tag), p, e, id);
    }
    assert !Covers(t, id);
  }

  lemma MarkUncovers(s: State, p: Token, e: EventId, id: TaskId) returns (steps: seq<Step>, t: State)
    requires p in s.publishers && AboutToMark(p, s.publishers[p], s.db.events)
    requires s.publishers[p].batch[s.publishers[p].next].event == e && !HasCopy(s.copies, e)
    requires id in s.db.tasks && s.db.tasks[id].status == Pending
    requires forall f | f in s.db.events && s.db.events[f].aggregate == id
      && s.db.events[f].generation == s.db.tasks[id].generation :: f == e
    ensures Runs(s, steps, t) && !Covers(t, id)
  {
    var mark := Step.MarkPublished(p, 0, Answered);
    OneStep(s, mark);
    steps, t := [mark], Do(s, mark);
    assert t.db == Tables.MarkPublished(s.db, e, p, 0) && t.copies == s.copies;
    Uncovered(t, id, e);
  }

  // Coverage holds, and will hold as long as nothing else is dropped.
  ghost predicate StaysCovered(s: State) {
    forall steps, t | Runs(s, steps, t) :: Coverage(t)
  }

  lemma SoundStaysCovered(s: State)
    requires Sound(s)
    ensures StaysCovered(s)
  {
    forall steps, t | Runs(s, steps, t) ensures Coverage(t) {
      RunSound(s, steps, t);
      SoundCovers(t);
    }
  }

  // Coverage survives a drop, in every continuation, if and only if the drop is bearable.
  lemma DropKeepsCoverage(s: State, tag: Tag)
    requires Sound(s) && tag in s.copies
    ensures StaysCovered(Drop(s, tag)) <==> Bearable(s, tag)
  {
    if Bearable(s, tag) {
      BearableIsSound(s, tag);
      SoundStaysCovered(Drop(s, tag));
    } else {
      var steps, t := UnbearableUncovers(s, tag);
    }
  }

  ghost predicate BearableRun(b: Broker, events: seq<Event>, c: Broker)
    requires LossyRuns(b, events, c)
    decreases |events|
  {
    events != [] ==>
      && (events[0].Dropped? ==> Bearable(b.state, events[0].tag))
      && BearableRun(Happens(b, events[0]), events[1..], c)
  }

  ghost predicate CoveredThroughout(b: Broker, events: seq<Event>, c: Broker)
    requires LossyRuns(b, events, c)
    decreases |events|
  {
    StaysCovered(b.state) && (events != [] ==> CoveredThroughout(Happens(b, events[0]), events[1..], c))
  }

  // Along a run with drops coverage is safe throughout if and only if every drop is bearable.
  lemma {:induction false} CoverageNeedsBearableDrops(b: Broker, events: seq<Event>, c: Broker)
    requires Sound(b.state) && LossyRuns(b, events, c)
    ensures CoveredThroughout(b, events, c) <==> BearableRun(b, events, c)
    decreases |events|
  {
    SoundStaysCovered(b.state);
    if events == [] {
    } else {
      match events[0]
      case Took(step) =>
        StepSound(b.state, step);
        CoverageNeedsBearableDrops(Happens(b, events[0]), events[1..], c);
      case Dropped(tag) =>
        DropKeepsCoverage(b.state, tag);
        if Bearable(b.state, tag) {
          BearableIsSound(b.state, tag);
          CoverageNeedsBearableDrops(Happens(b, events[0]), events[1..], c);
        }
    }
  }

  // ---------- what an unbearable drop can cost ----------

  // The session has still to publish a message for the task.
  ghost predicate StillPublishes(session: Publisher, id: TaskId) {
    exists i | session.next <= i < |session.batch| ::
      session.batch[i].task == id && (i == session.next ==> !session.confirmed)
  }

  // A pending task that nobody has a message for, or ever will.
  ghost predicate Lost(s: State, id: TaskId) {
    && id in s.ledgers && id in s.db.tasks && s.db.tasks[id].status == Pending
    && (forall tag | tag in s.copies :: s.copies[tag].message.task != id)
    && (forall e | e in s.db.events && s.db.events[e].aggregate == id :: s.db.events[e].publishedAt.Some?)
    && (forall w | w in s.workers && s.workers[w].message.task == id :: !s.workers[w].progress.Received?)
    && (forall p | p in s.publishers :: !StillPublishes(s.publishers[p], id))
  }

  // The task's row, and its events but for marks, stay; none is added.
  ghost predicate Stays(db: DB, db': DB, id: TaskId) {
    && Row(db'.tasks, id) == Row(db.tasks, id)
    && forall e | e in db'.events && db'.events[e].aggregate == id ::
         e in db.events && db.events[e].aggregate == id
         && (db.events[e].publishedAt.Some? ==> db'.events[e].publishedAt.Some?)
  }

  lemma {:induction false} ScheduleStays(s: State, rows: seq<TaskId>, now: Time, id: TaskId)
    requires id !in rows
    ensures Stays(s.db, DoSchedule(s, rows, now).db, id)
    ensures DoSchedule(s, rows, now).copies == s.copies && DoSchedule(s, rows, now).workers == s.workers
    ensures DoSchedule(s, rows, now).publishers == s.publishers
    ensures s.ledgers.Keys <= DoSchedule(s, rows, now).ledgers.Keys
  {
    if rows == [] {
    } else {
      ScheduleStays(s, rows[..|rows| - 1], now, id);
      var mid := DoSchedule(s, rows[..|rows| - 1], now);
      ScheduleOneStays(mid, rows[|rows| - 1], now, id);
      ScheduleOneOnly(mid, rows[|rows| - 1], now);
    }
  }

  lemma ScheduleOneStays(s: State, turn: TaskId, now: Time, id: TaskId)
    requires turn != id
    ensures Stays(s.db, DoScheduleOne(s, turn, now).db, id)
  {
    if turn in s.db.tasks && turn in s.ledgers {
      var t := s.db.tasks[turn];
      var after := WithRow(s, turn, ScheduleRow(t, now), Scheduled(s.ledgers[turn], t));
      BirthStays(after, Digest(turn, t.generation + 1), turn, t.generation + 1, now, id);
    }
  }

  lemma BirthStays(s: State, event: EventId, turn: TaskId, g: nat, at: Time, id: TaskId)
    requires turn != id
    ensures Stays(s.db, WithBirth(s, event, turn, g, at).db, id)
  {}

  lemma LostAtCreate(s: State, i: TaskId, request: Request, event: EventId, id: TaskId)
    requires Lost(s, id) && i !in s.ledgers
    ensures Lost(DoCreate(s, i, request, event), id)
    ensures Row(DoCreate(s, i, request, event).db.tasks, id) == Row(s.db.tasks, id)
  {
    assert i != id;
    CreateStays(s, i, request, event, id);
  }

  lemma CreateStays(s: State, i: TaskId, request: Request, event: EventId, id: TaskId)
    requires i != id
    ensures var t := DoCreate(s, i, request, event);
      && Stays(s.db, t.db, id) && s.ledgers.Keys <= t.ledgers.Keys
      && t.copies == s.copies && t.workers == s.workers && t.publishers == s.publishers
  {
    if !KeyTaken(s.db, request) {
      BirthStays(WithRow(s, i, NewTask(request), NewLedger(request)), event, i, 0, request.createdAt, id);
    }
  }

  lemma LostAtReplay(s: State, i: TaskId, now: Time, event: EventId, id: TaskId)
    requires Lost(s, id)
    ensures Lost(DoReplay(s, i, now, event), id)
    ensures Row(DoReplay(s, i, now, event).db.tasks, id) == Row(s.db.tasks, id)
  {
    ReplayStays(s, i, now, event, id);
  }

  lemma ReplayStays(s: State, i: TaskId, now: Time, event: EventId, id: TaskId)
    requires id in s.db.tasks && s.db.tasks[id].status != Dead
    ensures var t := DoReplay(s, i, now, event);
      && Stays(s.db, t.db, id) && s.ledgers.Keys <= t.ledgers.Keys
      && t.copies == s.copies && t.workers == s.workers && t.publishers == s.publishers
  {
    if i in s.db.tasks && s.db.tasks[i].status == Dead && i in s.ledgers {
      var row := ReplayRow(s.db.tasks[i], now);
      BirthStays(WithRow(s, i, row, Replayed(s.ledgers[i])), event, i, row.generation, now, id);
    }
  }

  lemma LostAtSchedule(s: State, now: Time, rows: seq<TaskId>, id: TaskId)
    requires Lost(s, id) && DueRows(s.db, rows, now)
    ensures Lost(DoSchedule(s, rows, now), id)
    ensures Row(DoSchedule(s, rows, now).db.tasks, id) == Row(s.db.tasks, id)
  {
    ScheduleStays(s, rows, now, id);
  }

  lemma LostAtDelete(s: State, cutoff: Time, doomed: set<TaskId>, id: TaskId)
    requires Lost(s, id) && forall i | i in doomed :: Deletable(s.db, i, cutoff)
    ensures Lost(s.(db := Delete(s.db, doomed)), id) && Row(Delete(s.db, doomed).tasks, id) == Row(s.db.tasks, id)
  {
    assert id !in doomed;
  }

  lemma LostAtDatabase(s: State, step: Step, id: TaskId)
    requires Lost(s, id) && Enabled(s, step)
    requires step.Create? || step.ScheduleDue? || step.Replay? || step.DeleteTerminal?
    ensures Lost(Do(s, step), id) && Row(Do(s, step).db.tasks, id) == Row(s.db.tasks, id)
  {
    match step
    case Create(i, request, event) => LostAtCreate(s, i, request, event, id);
    case ScheduleDue(now, rows) => LostAtSchedule(s, now, rows, id);
    case Replay(i, now, event) => LostAtReplay(s, i, now, event, id);
    case DeleteTerminal(cutoff, doomed) => LostAtDelete(s, cutoff, doomed, id);
  }

  lemma LostAtPublisher(s: State, step: Step, id: TaskId)
    requires Lost(s, id) && Enabled(s, step)
    requires step.ClaimOutbox? || step.Publish? || step.MarkPublished? || step.StopPublisher?
    ensures Lost(Do(s, step), id) && Do(s, step).db.tasks[id] == s.db.tasks[id]
  {
    match step
    case ClaimOutbox(p, events, now, until, fault) => LostAtClaim(s, p, events, now, until, fault, id);
    case Publish(p, tag, arrives, confirmed) => LostAtPublish(s, p, tag, arrives, confirmed, id);
    case MarkPublished(p, at, fault) => LostAtMark(s, p, at, fault, id);
    case StopPublisher(p) =>
  }

  lemma LostAtClaim(s: State, p: Token, events: seq<EventId>, now: Time, until: Time, fault: Fault, id: TaskId)
    requires Lost(s, id) && Enabled(s, Step.ClaimOutbox(p, events, now, until, fault))
    ensures Lost(DoClaimOutbox(s, p, events, until, fault), id)
    ensures DoClaimOutbox(s, p, events, until, fault).db.tasks == s.db.tasks
  {
    var t := DoClaimOutbox(s, p, events, until, fault);
    forall q | q in t.publishers ensures !StillPublishes(t.publishers[q], id) {
      if q == p && fault == Answered {
        forall i | 0 <= i < |events| ensures t.publishers[p].batch[i].task != id {
          assert events[i] in events;
        }
      }
    }
  }

  lemma LostAtPublish(s: State, p: Token, tag: Tag, arrives: bool, confirmed: bool, id: TaskId)
    requires Lost(s, id) && Enabled(s, Publish(p, tag, arrives, confirmed))
    ensures Lost(DoPublish(s, p, tag, arrives, confirmed), id)
    ensures DoPublish(s, p, tag, arrives, confirmed).db == s.db
  {
    var session := s.publishers[p];
    assert session.batch[session.next].task != id;
    assert forall i | session.next <= i < |session.batch| :: session.batch[i].task != id;
  }

  lemma LostAtMark(s: State, p: Token, at: Time, fault: Fault, id: TaskId)
    requires Lost(s, id) && Enabled(s, Step.MarkPublished(p, at, fault))
    ensures Lost(DoMarkPublished(s, p, at, fault), id)
    ensures DoMarkPublished(s, p, at, fault).db.tasks == s.db.tasks
  {
    var session := s.publishers[p];
    assert forall i | session.next < i < |session.batch| :: session.batch[i].task != id;
  }

  lemma LostAtBroker(s: State, step: Step, id: TaskId)
    requires Lost(s, id) && Enabled(s, step) && BrokerStep(step)
    ensures Lost(Do(s, step), id) && Do(s, step).db == s.db
  {}

  lemma LostAtAdmit(s: State, w: Token, admitted: bool, id: TaskId)
    requires Lost(s, id) && Enabled(s, Admit(w, admitted))
    ensures Lost(Do(s, Admit(w, admitted)), id) && Do(s, Admit(w, admitted)).db == s.db
  {}

  lemma LostAtSend(s: State, w: Token, result: SendResult, id: TaskId)
    requires Lost(s, id) && Enabled(s, Send(w, result))
    ensures Lost(Do(s, Send(w, result)), id) && Do(s, Send(w, result)).db == s.db
  {}

  lemma LostAtResult(s: State, step: Step, id: TaskId)
    requires Lost(s, id) && Enabled(s, step) && (step.Claim? || step.Apply?)
    ensures Lost(Do(s, step), id) && Do(s, step).db.tasks[id] == s.db.tasks[id]
  {
    match step
    case Claim(w, until, at, fault) => ClaimLeaves(s, w, until, at, fault, id);
    case Apply(w, at, jittered, fault) => ApplyLeaves(s, w, at, jittered, fault, id);
  }

  lemma AdvanceLeaves(s: State, w: Token, progress: Protocol.Progress, id: TaskId)
    requires Lost(s, id) && w in s.workers && !progress.Received?
    ensures Lost(Advance(s, w, progress), id) && Advance(s, w, progress).db == s.db
  {}

  lemma RowLeaves(s: State, other: TaskId, row: Task, l: Ledger, id: TaskId)
    requires Lost(s, id) && other != id
    ensures Lost(WithRow(s, other, row, l), id) && Row(WithRow(s, other, row, l).db.tasks, id) == Row(s.db.tasks, id)
  {}

  lemma ClaimLeaves(s: State, w: Token, until: Time, at: Time, fault: Fault, id: TaskId)
    requires Lost(s, id) && w in s.workers && s.workers[w].progress.Received?
    ensures Lost(DoClaim(s, w, until, at, fault), id)
    ensures Row(DoClaim(s, w, until, at, fault).db.tasks, id) == Row(s.db.tasks, id)
  {
    var other := s.workers[w].message.task;
    var acquired := other in s.db.tasks && s.db.tasks[other].status == Pending;
    var after := s;
    if acquired && fault != Fault.Lost && other in s.ledgers {
      after := WithRow(s, other, ClaimRow(s.db.tasks[other], w, until, at), Granted(s.ledgers[other], w));
      RowLeaves(s, other, ClaimRow(s.db.tasks[other], w, until, at), Granted(s.ledgers[other], w), id);
    }
    AdvanceLeaves(after, w, DoClaim(s, w, until, at, fault).workers[w].progress, id);
  }

  lemma ApplyLeaves(s: State, w: Token, at: Time, jittered: Duration, fault: Fault, id: TaskId)
    requires Lost(s, id) && w in s.workers && s.workers[w].progress.Answer?
    ensures Lost(DoApply(s, w, at, jittered, fault), id)
    ensures Row(DoApply(s, w, at, jittered, fault).db.tasks, id) == Row(s.db.tasks, id)
  {
    var other, r := s.workers[w].message.task, Decision(s.workers[w], at, jittered);
    assert !Owns(s.db.tasks[id], w);
    var after := s;
    if fault != Fault.Lost && other in s.db.tasks && Owns(s.db.tasks[other], w) && other in s.ledgers {
      after := WithRow(s, other, ApplyRow(s.db.tasks[other], r), Applied(s.ledgers[other], w, r.outcome));
      RowLeaves(s, other, ApplyRow(s.db.tasks[other], r), Applied(s.ledgers[other], w, r.outcome), id);
    }
    AdvanceLeaves(after, w, Done(if fault == Answered then Ack else Requeue), id);
  }

  lemma LostStep(s: State, step: Step, id: TaskId)
    requires Lost(s, id) && Enabled(s, step)
    ensures Lost(Do(s, step), id) && Do(s, step).db.tasks[id] == s.db.tasks[id]
  {
    if step.Create? || step.ScheduleDue? || step.Replay? || step.DeleteTerminal? {
      LostAtDatabase(s, step, id);
    } else if step.ClaimOutbox? || step.Publish? || step.MarkPublished? || step.StopPublisher? {
      LostAtPublisher(s, step, id);
    } else if step.Claim? || step.Apply? {
      LostAtResult(s, step, id);
    } else if step.Admit? {
      LostAtAdmit(s, step.worker, step.admitted, id);
    } else if step.Send? {
      LostAtSend(s, step.worker, step.result, id);
    } else {
      LostAtBroker(s, step, id);
    }
  }

  lemma LostAtDrop(s: State, tag: Tag, id: TaskId)
    requires Lost(s, id)
    ensures Lost(Drop(s, tag), id)
  {}

  // Nobody ever looks at a lost task again: not the scheduler, not an operator's replay, not
  // retention. It stays pending, the same in every column, for ever.
  lemma {:induction false} LostForEver(b: Broker, events: seq<Event>, c: Broker, id: TaskId)
    requires LossyRuns(b, events, c) && Lost(b.state, id)
    ensures Lost(c.state, id) && c.state.db.tasks[id] == b.state.db.tasks[id]
    decreases |events|
  {
    if events == [] {
    } else {
      match events[0] {
        case Took(step) => LostStep(b.state, step, id);
        case Dropped(tag) => LostAtDrop(b.state, tag, id);
      }
      LostForEver(Happens(b, events[0]), events[1..], c, id);
    }
  }

  // ---------- and otherwise a pending task can still be delivered ----------

  // Any copy of any message for the task will do, of whatever generation: the claim does not look.
  lemma AnyCopyDelivers(s: State, tag: Tag, id: TaskId, floor: Time) returns (steps: seq<Step>, t: State)
    requires id in s.ledgers && id in s.db.tasks && s.db.tasks[id].status == Pending
    requires tag in s.copies && s.copies[tag].message.task == id
    ensures Delivery(s, steps, t, id, floor)
  {
    if s.copies[tag].holder.None? {
      steps, t := QueuedDelivers(s, tag, id, floor);
    } else {
      var rest;
      rest, t := QueuedDelivers(Do(s, Redeliver(tag)), tag, id, floor);
      Prepend(s, Redeliver(tag), rest, t, id, floor);
      steps := [Redeliver(tag)] + rest;
    }
  }

  // A session with a message for the task in its batch gets there.
  lemma {:induction false} BatchDelivers(s: State, p: Token, i: nat, id: TaskId, floor: Time)
    returns (steps: seq<Step>, t: State)
    requires id in s.ledgers && id in s.db.tasks && s.db.tasks[id].status == Pending && p in s.publishers
    requires var session := s.publishers[p];
      && session.next <= i < |session.batch| && session.batch[i].task == id
      && (i == session.next ==> !session.confirmed)
    ensures Delivery(s, steps, t, id, floor)
    decreases i - s.publishers[p].next, if s.publishers[p].confirmed then 0 else 1
  {
    var session, step, rest := s.publishers[p], StopPublisher(p), [];
    if session.confirmed {
      step := Step.MarkPublished(p, floor, Answered);
      rest, t := BatchDelivers(Do(s, step), p, i, id, floor);
    } else {
      var tag := Fresh(s.copies.Keys);
      step := Publish(p, tag, true, true);
      if i == session.next {
        rest, t := AnyCopyDelivers(Do(s, step), tag, id, floor);
      } else {
        rest, t := BatchDelivers(Do(s, step), p, i, id, floor);
      }
    }
    Prepend(s, step, rest, t, id, floor);
    steps := [step] + rest;
  }

  // A pending task can be delivered if and only if it is not lost, with drops or without.
  lemma PendingIsDeliverableUnlessLost(b: Broker, id: TaskId, floor: Time)
    requires var s := b.state; id in s.ledgers && id in s.db.tasks && s.db.tasks[id].status == Pending
    ensures (exists steps, t :: Delivery(b.state, steps, t, id, floor)) <==> !Lost(b.state, id)
    ensures Lost(b.state, id) ==>
      !exists events, c :: LossyRuns(b, events, c) && id in c.state.db.tasks && c.state.db.tasks[id].status == Delivered
  {
    if Lost(b.state, id) {
      forall events, c | LossyRuns(b, events, c)
        ensures id in c.state.db.tasks && c.state.db.tasks[id].status == Pending
      {
        LostForEver(b, events, c, id);
      }
      forall steps, t | Delivery(b.state, steps, t, id, floor) ensures false {
        var events, c := AsLossy(b, steps, t);
      }
    } else {
      var steps, t := UnlostDelivers(b.state, id, floor);
    }
  }

  lemma UnlostDelivers(s: State, id: TaskId, floor: Time) returns (steps: seq<Step>, t: State)
    requires id in s.ledgers && id in s.db.tasks && s.db.tasks[id].status == Pending && !Lost(s, id)
    ensures Delivery(s, steps, t, id, floor)
  {
    if tag :| tag in s.copies && s.copies[tag].message.task == id {
      steps, t := AnyCopyDelivers(s, tag, id, floor);
    } else if e :| e in s.db.events && s.db.events[e].aggregate == id && s.db.events[e].publishedAt.None? {
      steps, t := UnpublishedDelivers(s, e, id, floor);
    } else if w :| w in s.workers && s.workers[w].message.task == id && s.workers[w].progress.Received? {
      steps, t := HandleDelivers(s, w, id, floor);
    } else {
      var p :| p in s.publishers && StillPublishes(s.publishers[p], id);
      var session := s.publishers[p];
      var i :| session.next <= i < |session.batch| && session.batch[i].task == id
        && (i == session.next ==> !session.confirmed);
      steps, t := BatchDelivers(s, p, i, id, floor);
    }
  }

  // A run without drops is a lossy run.
  lemma {:induction false} AsLossy(b: Broker, steps: seq<Step>, t: State) returns (events: seq<Event>, c: Broker)
    requires Runs(b.state, steps, t)
    ensures LossyRuns(b, events, c) && c.state == t && forall event | event in events :: event.Took?
    decreases |steps|
  {
    if steps == [] {
      events, c := [], b;
    } else {
      var rest;
      rest, c := AsLossy(Happens(b, Took(steps[0])), steps[1..], t);
      LossyFirst(b, Took(steps[0]), rest, c);
      events := [Took(steps[0])] + rest;
    }
  }

  // As long as nothing is dropped no task is lost.
  lemma NothingIsLostWithoutDrops(s: State, id: TaskId)
    requires Reachable(s)
    ensures !Lost(s, id)
  {
    ReachableHolds(s);
    if id in s.ledgers && id in s.db.tasks && s.db.tasks[id].status == Pending {
      var steps, t := PendingDelivers(s, id, 0);
      PendingIsDeliverableUnlessLost(Broker(s, map[]), id, 0);
    }
  }

  // ---------- a short outage is enough ----------

  // What happens while the database answers no claim: workers receive, fail, and requeue at once.
  predicate Outage(event: Event) {
    event.Took? && (event.step.Receive? || (event.step.Claim? && event.step.fault == Fault.Lost) || event.step.Dispose?)
  }

  lemma OneRequeue(b: Broker, tag: Tag) returns (events: seq<Event>, c: Broker)
    requires tag in b.state.copies && b.state.copies[tag].holder.None?
    ensures LossyRuns(b, events, c) && forall event | event in events :: Outage(event)
    ensures c.state == b.state.(leases := c.state.leases)
    ensures Requeues(c.requeues, tag) == Requeues(b.requeues, tag) + 1 && |events| == 3
  {
    var w := Fresh(b.state.leases + b.state.workers.Keys);
    var f := ClaimFails(b, tag, w);
    c := GivesBack(b.state, f, tag, w);
    LossyFirst(f, Took(Dispose(w)), [], c);
    var received := Happens(b, Took(Receive(tag, w)));
    LossyFirst(received, Took(Claim(w, 0, 0, Fault.Lost)), [Took(Dispose(w))] + [], c);
    events := [Took(Claim(w, 0, 0, Fault.Lost))] + ([Took(Dispose(w))] + []);
    LossyFirst(b, Took(Receive(tag, w)), events, c);
    events := [Took(Receive(tag, w))] + events;
  }

  lemma ClaimFails(b: Broker, tag: Tag, w: Token) returns (c: Broker)
    requires tag in b.state.copies && b.state.copies[tag].holder.None?
    requires w !in b.state.leases && w !in b.state.workers
    ensures Possible(b, Took(Receive(tag, w)))
    ensures var received := Happens(b, Took(Receive(tag, w)));
      Possible(received, Took(Claim(w, 0, 0, Fault.Lost))) && c == Happens(received, Took(Claim(w, 0, 0, Fault.Lost)))
    ensures var s := b.state;
      c.state == s.(copies := s.copies[tag := s.copies[tag].(holder := Some(w))], leases := s.leases + {w},
                    workers := s.workers[w := Worker(tag, s.copies[tag].message, Done(Requeue))])
    ensures Requeues(c.requeues, tag) == Requeues(b.requeues, tag)
  {
    c := Happens(Happens(b, Took(Receive(tag, w))), Took(Claim(w, 0, 0, Fault.Lost)));
  }

  lemma GivesBack(s: State, b: Broker, tag: Tag, w: Token) returns (c: Broker)
    requires tag in s.copies && s.copies[tag].holder.None? && w !in s.workers
    requires b.state == s.(copies := s.copies[tag := s.copies[tag].(holder := Some(w))], leases := s.leases + {w},
                           workers := s.workers[w := Worker(tag, s.copies[tag].message, Done(Requeue))])
    ensures Possible(b, Took(Dispose(w))) && c == Happens(b, Took(Dispose(w)))
    ensures c.state == s.(leases := s.leases + {w})
    ensures Requeues(c.requeues, tag) == Requeues(b.requeues, tag) + 1
  {
    c := Happens(b, Took(Dispose(w)));
    assert c.state.copies == s.copies && c.state.workers == s.workers;
  }

  lemma {:induction false} ManyRequeues(b: Broker, tag: Tag, n: nat) returns (events: seq<Event>, c: Broker)
    requires tag in b.state.copies && b.state.copies[tag].holder.None?
    ensures LossyRuns(b, events, c) && forall event | event in events :: Outage(event)
    ensures c.state == b.state.(leases := c.state.leases)
    ensures Requeues(c.requeues, tag) == Requeues(b.requeues, tag) + n && |events| == 3 * n
    decreases n
  {
    if n == 0 {
      events, c := [], b;
    } else {
      var first, mid := OneRequeue(b, tag);
      var second;
      second, c := ManyRequeues(mid, tag, n - 1);
      LossyJoins(b, first, mid, second, c);
      events := first + second;
    }
  }

  // Any queued copy can be lost to an outage: twenty-one claims fail, and the broker drops it.
  // Nothing else changes but the lease tokens drawn.
  lemma OutageDrops(b: Broker, tag: Tag) returns (outage: seq<Event>, c: Broker)
    requires tag in b.state.copies && b.state.copies[tag].holder.None?
    ensures |outage| == 63 && forall event | event in outage :: Outage(event)
    ensures LossyRuns(b, outage + [Dropped(tag)], c)
    ensures c.state == Drop(b.state, tag).(leases := c.state.leases)
  {
    var mid;
    outage, mid := ManyRequeues(b, tag, DELIVERY_LIMIT + 1);
    c := Happens(mid, Dropped(tag));
    LossyFirst(mid, Dropped(tag), [], c);
    assert [Dropped(tag)] + [] == [Dropped(tag)];
    LossyJoins(b, outage, mid, [Dropped(tag)], c);
  }

  // So it loses a task whose only message that copy was.
  lemma OutageLoses(b: Broker, tag: Tag, id: TaskId)
    requires tag in b.state.copies && b.state.copies[tag].holder.None? && Lost(Drop(b.state, tag), id)
    ensures exists outage, c ::
      && (forall event | event in outage :: Outage(event))
      && LossyRuns(b, outage + [Dropped(tag)], c) && Lost(c.state, id)
  {
    var outage, c := OutageDrops(b, tag);
    assert Lost(c.state, id);
  }

  // And there is such a task in a run from the empty database, with this one drop: created,
  // published, marked.
  lemma OneDropLoses()
    ensures exists before: seq<Event>, outage, c ::
      && (forall event | event in before :: event.Took?) && (forall event | event in outage :: Outage(event))
      && LossyRuns(Broker(Init(), map[]), before + (outage + [Dropped(0)]), c) && Lost(c.state, 0)
  {
    var steps, s := OnePublished();
    var before, b := AsLossy(Broker(Init(), map[]), steps, s);
    var outage, c := OutageDrops(b, 0);
    LossyJoins(Broker(Init(), map[]), before, b, outage + [Dropped(0)], c);
    assert Lost(c.state, 0);
  }

  // One task created, its event published and marked, its message queued.
  lemma OnePublished() returns (steps: seq<Step>, t: State)
    ensures Runs(Init(), steps, t)
    ensures t.copies.Keys == {0} && t.copies[0].holder.None? && t.workers == map[]
    ensures 0 in t.ledgers && 0 in t.db.tasks && t.db.tasks[0].status == Pending
    ensures forall e | e in t.db.events :: t.db.events[e].publishedAt.Some?
    ensures t.publishers.Keys == {0} && t.publishers[0].next == |t.publishers[0].batch|
  {
    var created, mid := FirstEventClaimed();
    assert [FIRST_CREATE, FIRST_CLAIM][1..] == [FIRST_CLAIM] && [FIRST_CLAIM][1..] == [];
    assert Runs(Init(), [FIRST_CREATE, FIRST_CLAIM], mid);
    var rest;
    rest, t := PublishedAndMarked(mid);
    RunsJoin(Init(), [FIRST_CREATE, FIRST_CLAIM], mid, rest, t);
    steps := [FIRST_CREATE, FIRST_CLAIM] + rest;
  }

  // One claimed event is published and marked.
  lemma PublishedAndMarked(s: State) returns (steps: seq<Step>, t: State)
    requires s.copies == map[] && s.publishers == map[0 := Publisher([Message(Drawn(0), 0)], 0, false, 0)]
    requires s.db.events.Keys == {Drawn(0)} && MarkMatches(s.db.events[Drawn(0)], 0)
    ensures Runs(s, steps, t)
    ensures t.copies.Keys == {0} && t.copies[0].holder.None?
    ensures t.workers == s.workers && t.ledgers == s.ledgers && t.db.tasks == s.db.tasks
    ensures forall e | e in t.db.events :: t.db.events[e].publishedAt.Some?
    ensures t.publishers.Keys == {0} && t.publishers[0].next == |t.publishers[0].batch|
  {
    var publish, mark := Publish(0, 0, true, true), Step.MarkPublished(0, 0, Answered);
    var next := Do(s, publish);
    t := Do(next, mark);
    assert [publish, mark][1..] == [mark] && [mark][1..] == [];
    steps := [publish, mark];
  }
}
