/** The delivery protocol as a transition system: the two tables, the broker, and any number of
    concurrent publishers, workers, schedulers, operators and retention jobs. Every SQL statement
    or transaction is one step. Clock readings are arguments of the steps and unconstrained: no
    step assumes that clocks agree or advance. */
module Protocol {
  import opened Wrappers
  import opened Notification
  import opened Rows
  import opened Tables
  import opened Ledgers

  // The broker's own name for one copy of a message (a delivery).
  type Tag = nat

  datatype Slot = Slot(task: TaskId, generation: nat)

  datatype Message = Message(event: EventId, task: TaskId)

  // A persistent message: queued, or handed to the worker session that must settle it.
  datatype Copy = Copy(message: Message, holder: Option<Token>)

  datatype Disposition = Ack | Requeue | Reject

  // How far one call of Handle has got.
  datatype Progress =
    | Received
    | Claimed(snapshot: Task)
    | Admitted(snapshot: Task)
    | Answer(snapshot: Task, result: SendResult)
    | Done(disposition: Disposition)

  datatype Worker = Worker(tag: Tag, message: Message, progress: Progress)

  // One call of RunOnce: `confirmed` says that batch[next] is published and not yet marked.
  datatype Publisher = Publisher(batch: seq<Message>, next: nat, confirmed: bool, published: nat)

  // A worker session is named by its lease token and a publisher session by its claim token.
  datatype State = State(
    db: DB,
    copies: map<Tag, Copy>,
    workers: map<Token, Worker>,
    publishers: map<Token, Publisher>,
    leases: set<Token>,            // lease tokens drawn so far
    claims: set<Token>,            // claim tokens drawn so far
    born: map<EventId, Slot>,      // history: the slot of every event ever inserted
    slots: map<Slot, EventId>,     // history: its inverse
    enqueued: set<EventId>,        // history: events the broker has taken at least once
    ledgers: map<TaskId, Ledger>)  // history: of every task ever created

  datatype Step =
    | Create(id: TaskId, request: Request, event: EventId)
    | ClaimOutbox(publisher: Token, events: seq<EventId>, now: Time, until: Time, fault: Fault)
    | Publish(publisher: Token, tag: Tag, arrives: bool, confirmed: bool)
    | MarkPublished(publisher: Token, at: Time, fault: Fault)
    | StopPublisher(publisher: Token)
    | Receive(tag: Tag, worker: Token)
    | Redeliver(tag: Tag)
    | Claim(worker: Token, until: Time, at: Time, fault: Fault)
    | Admit(worker: Token, admitted: bool)
    | Send(worker: Token, result: SendResult)
    | Apply(worker: Token, completedAt: Time, jittered: Duration, fault: Fault)
    | Dispose(worker: Token)
    | CrashWorker(worker: Token)
    | ScheduleDue(now: Time, rows: seq<TaskId>)
    | Replay(id: TaskId, now: Time, event: EventId)
    | DeleteTerminal(cutoff: Time, doomed: set<TaskId>)

  function Init(): State {
    State(DB(map[], map[]), map[], map[], map[], {}, {}, map[], map[], {}, map[])
  }

  ghost predicate Enabled(s: State, step: Step) {
    match step
    case Create(id, request, event) =>
      id !in s.ledgers && event.Drawn? && event !in s.born && request.Admissible()
    case ClaimOutbox(p, events, now, until, fault) =>
      p !in s.claims && ClaimableRows(s.db, events, now) && fault != Lost
    case Publish(p, tag, arrives, confirmed) =>
      && p in s.publishers && s.publishers[p].next < |s.publishers[p].batch| && !s.publishers[p].confirmed
      && (confirmed ==> arrives) && (arrives ==> tag !in s.copies)
    case MarkPublished(p, at, fault) =>
      p in s.publishers && s.publishers[p].next < |s.publishers[p].batch| && s.publishers[p].confirmed
    case StopPublisher(p) => p in s.publishers
    case Receive(tag, w) => tag in s.copies && s.copies[tag].holder.None? && w !in s.leases
    case Redeliver(tag) => tag in s.copies
    case Claim(w, until, at, fault) => w in s.workers && s.workers[w].progress.Received?
    case Admit(w, admitted) => w in s.workers && s.workers[w].progress.Claimed?
    case Send(w, result) => w in s.workers && s.workers[w].progress.Admitted? && SenderMayReturn(result)
    case Apply(w, at, jittered, fault) => w in s.workers && s.workers[w].progress.Answer?
    case Dispose(w) => w in s.workers && s.workers[w].progress.Done?
    case CrashWorker(w) => w in s.workers
    case ScheduleDue(now, rows) => DueRows(s.db, rows, now)
    case Replay(id, now, event) => event.Drawn? && event !in s.born
    case DeleteTerminal(cutoff, doomed) => forall id | id in doomed :: Deletable(s.db, id, cutoff)
  }

  // A task row, its history, and the event that starts its next generation if there is one.

  ghost function WithRow(s: State, id: TaskId, row: Task, ledger: Ledger): State {
    s.(db := s.db.(tasks := s.db.tasks[id := row]), ledgers := s.ledgers[id := ledger])
  }

  ghost function WithBirth(s: State, event: EventId, id: TaskId, g: nat, at: Time): State {
    s.(db := s.db.(events := s.db.events[event := NewEvent(id, g, at)]),
       born := s.born[event := Slot(id, g)], slots := s.slots[Slot(id, g) := event])
  }

  ghost function DoCreate(s: State, id: TaskId, request: Request, event: EventId): State {
    if KeyTaken(s.db, request) then s
    else WithBirth(WithRow(s, id, NewTask(request), NewLedger(request)), event, id, 0, request.createdAt)
  }

  ghost function DoClaimOutbox(s: State, p: Token, events: seq<EventId>, until: Time, fault: Fault): State
    requires forall e | e in events :: e in s.db.events
  {
    var batch := seq(|events|, i requires 0 <= i < |events| =>
      assert events[i] in events; Message(events[i], s.db.events[events[i]].aggregate));
    s.(db := Tables.ClaimOutbox(s.db, events, p, until), claims := s.claims + {p},
       publishers := if fault == Answered then s.publishers[p := Publisher(batch, 0, false, 0)] else s.publishers)
  }

  ghost function DoPublish(s: State, p: Token, tag: Tag, arrives: bool, confirmed: bool): State
    requires p in s.publishers && s.publishers[p].next < |s.publishers[p].batch|
  {
    var session := s.publishers[p];
    var message := session.batch[session.next];
    s.(copies := if arrives then s.copies[tag := Copy(message, None)] else s.copies,
       enqueued := if arrives then s.enqueued + {message.event} else s.enqueued,
       publishers := if confirmed then s.publishers[p := session.(confirmed := true)] else s.publishers - {p})
  }

  ghost function DoMarkPublished(s: State, p: Token, at: Time, fault: Fault): State
    requires p in s.publishers && s.publishers[p].next < |s.publishers[p].batch|
  {
    var session := s.publishers[p];
    var event := session.batch[session.next].event;
    var applied := event in s.db.events && MarkMatches(s.db.events[event], p);
    s.(db := if fault == Lost then s.db else Tables.MarkPublished(s.db, event, p, at),
       publishers :=
         if fault == Answered
         then s.publishers[p := session.(next := session.next + 1, confirmed := false,
                                         published := session.published + if applied then 1 else 0)]
         else s.publishers - {p})
  }

  ghost function DoReceive(s: State, tag: Tag, w: Token): State
    requires tag in s.copies
  {
    s.(copies := s.copies[tag := s.copies[tag].(holder := Some(w))], leases := s.leases + {w},
       workers := s.workers[w := Worker(tag, s.copies[tag].message, Received)])
  }

  ghost function Advance(s: State, w: Token, progress: Progress): State
    requires w in s.workers
  {
    s.(workers := s.workers[w := s.workers[w].(progress := progress)])
  }

  ghost function DoClaim(s: State, w: Token, until: Time, at: Time, fault: Fault): State
    requires w in s.workers
  {
    var id := s.workers[w].message.task;
    var acquired := id in s.db.tasks && s.db.tasks[id].status == Pending;
    var after :=
      if acquired && fault != Lost && id in s.ledgers
      then WithRow(s, id, ClaimRow(s.db.tasks[id], w, until, at), Granted(s.ledgers[id], w))
      else s;
    Advance(after, w,
      if fault != Answered then Done(Requeue)
      else if acquired then Claimed(ClaimRow(s.db.tasks[id], w, until, at))
      else Done(Ack))
  }

  ghost function DoSend(s: State, w: Token, result: SendResult): State
    requires w in s.workers && s.workers[w].progress.Admitted?
  {
    var id := s.workers[w].message.task;
    var after := if id in s.ledgers then s.(ledgers := s.ledgers[id := Sent(s.ledgers[id], w, result)]) else s;
    Advance(after, w, Answer(s.workers[w].progress.snapshot, result))
  }

  // Lines 72-80 of Handle, from what the session remembers.
  ghost function Decision(w: Worker, completedAt: Time, jittered: Duration): AttemptResult
    requires w.progress.Answer?
  {
    Decide(w.progress.snapshot.request.policy, w.progress.snapshot.attempts, w.progress.result, completedAt,
           Some((d: Duration) => jittered))
  }

  ghost function DoApply(s: State, w: Token, completedAt: Time, jittered: Duration, fault: Fault): State
    requires w in s.workers && s.workers[w].progress.Answer?
  {
    var id := s.workers[w].message.task;
    var r := Decision(s.workers[w], completedAt, jittered);
    var after :=
      if fault != Lost && id in s.db.tasks && Owns(s.db.tasks[id], w) && id in s.ledgers
      then WithRow(s, id, ApplyRow(s.db.tasks[id], r), Applied(s.ledgers[id], w, r.outcome))
      else s;
    Advance(after, w, Done(if fault == Answered then Ack else Requeue))
  }

  // A copy that its session still holds goes back to the queue.
  ghost function Release(copies: map<Tag, Copy>, tag: Tag, w: Token): map<Tag, Copy> {
    if tag in copies && copies[tag].holder == Some(w) then copies[tag := copies[tag].(holder := None)] else copies
  }

  ghost function DoDispose(s: State, w: Token): State
    requires w in s.workers && s.workers[w].progress.Done?
  {
    var tag := s.workers[w].tag;
    s.(workers := s.workers - {w},
       copies :=
         if s.workers[w].progress.disposition == Requeue then Release(s.copies, tag, w)
         else if tag in s.copies && s.copies[tag].holder == Some(w) then s.copies - {tag}
         else s.copies)
  }

  ghost function DoScheduleOne(s: State, id: TaskId, now: Time): State {
    if id !in s.db.tasks || id !in s.ledgers then s
    else
      var t := s.db.tasks[id];
      var after := WithRow(s, id, ScheduleRow(t, now), Scheduled(s.ledgers[id], t));
      if Exhausted(t, now) || SlotTaken(s.db.events, id, t.generation + 1) then after
      else WithBirth(after, Digest(id, t.generation + 1), id, t.generation + 1, now)
  }

  ghost function DoSchedule(s: State, rows: seq<TaskId>, now: Time): State {
    if rows == [] then s
    else DoScheduleOne(DoSchedule(s, rows[..|rows| - 1], now), rows[|rows| - 1], now)
  }

  ghost function DoReplay(s: State, id: TaskId, now: Time, event: EventId): State {
    if id in s.db.tasks && s.db.tasks[id].status == Dead && id in s.ledgers then
      var t := ReplayRow(s.db.tasks[id], now);
      WithBirth(WithRow(s, id, t, Replayed(s.ledgers[id])), event, id, t.generation, now)
    else s
  }

  ghost function Do(s: State, step: Step): State
    requires Enabled(s, step)
  {
    match step
    case Create(id, request, event) => DoCreate(s, id, request, event)
    case ClaimOutbox(p, events, now, until, fault) => DoClaimOutbox(s, p, events, until, fault)
    case Publish(p, tag, arrives, confirmed) => DoPublish(s, p, tag, arrives, confirmed)
    case MarkPublished(p, at, fault) => DoMarkPublished(s, p, at, fault)
    case StopPublisher(p) => s.(publishers := s.publishers - {p})
    case Receive(tag, w) => DoReceive(s, tag, w)
    case Redeliver(tag) => s.(copies := s.copies[tag := s.copies[tag].(holder := None)])
    case Claim(w, until, at, fault) => DoClaim(s, w, until, at, fault)
    case Admit(w, admitted) =>
      Advance(s, w, if admitted then Admitted(s.workers[w].progress.snapshot) else Done(Requeue))
    case Send(w, result) => DoSend(s, w, result)
    case Apply(w, at, jittered, fault) => DoApply(s, w, at, jittered, fault)
    case Dispose(w) => DoDispose(s, w)
    case CrashWorker(w) => s.(workers := s.workers - {w}, copies := Release(s.copies, s.workers[w].tag, w))
    case ScheduleDue(now, rows) => DoSchedule(s, rows, now)
    case Replay(id, now, event) => DoReplay(s, id, now, event)
    case DeleteTerminal(cutoff, doomed) => s.(db := Delete(s.db, doomed))
  }

  // A scheduler's turn, or its whole pass, changes the tables and their history, names nobody, and
  // leaves broker and sessions alone.
  ghost predicate TablesOnly(s: State, t: State) {
    && t == s.(db := t.db, born := t.born, slots := t.slots, ledgers := t.ledgers)
    && t.db.tasks.Keys == s.db.tasks.Keys && t.ledgers.Keys == s.ledgers.Keys && s.born.Keys <= t.born.Keys
    && forall e | e in t.born && e.Drawn? :: e in s.born
  }

  lemma RowTurn(s: State, id: TaskId, row: Task, ledger: Ledger)
    requires id in s.db.tasks && id in s.ledgers
    ensures TablesOnly(s, WithRow(s, id, row, ledger))
  {}

  lemma BirthTurn(s: State, id: TaskId, g: nat, at: Time)
    ensures TablesOnly(s, WithBirth(s, Digest(id, g), id, g, at))
  {}

  lemma ScheduleOneOnly(s: State, id: TaskId, now: Time)
    ensures TablesOnly(s, DoScheduleOne(s, id, now))
  {
    if id in s.db.tasks && id in s.ledgers {
      var t := s.db.tasks[id];
      var row, l := ScheduleRow(t, now), Scheduled(s.ledgers[id], t);
      RowTurn(s, id, row, l);
      BirthTurn(WithRow(s, id, row, l), id, t.generation + 1, now);
    }
  }

  lemma {:induction false} ScheduleOnly(s: State, rows: seq<TaskId>, now: Time)
    ensures TablesOnly(s, DoSchedule(s, rows, now))
  {
    if rows == [] {
    } else {
      ScheduleOnly(s, rows[..|rows| - 1], now);
      ScheduleOneOnly(DoSchedule(s, rows[..|rows| - 1], now), rows[|rows| - 1], now);
    }
  }

  // `steps` lead from s to t.
  ghost predicate Runs(s: State, steps: seq<Step>, t: State)
    decreases |steps|
  {
    if steps == [] then s == t
    else Enabled(s, steps[0]) && Runs(Do(s, steps[0]), steps[1..], t)
  }

  ghost predicate Reachable(s: State) {
    exists steps :: Runs(Init(), steps, s)
  }

  lemma {:induction false} RunsJoin(s: State, first: seq<Step>, t: State, second: seq<Step>, u: State)
    requires Runs(s, first, t) && Runs(t, second, u)
    ensures Runs(s, first + second, u)
    decreases |first|
  {
    if first == [] {
      assert first + second == second;
    } else {
      RunsJoin(Do(s, first[0]), first[1..], t, second, u);
      assert (first + second)[1..] == first[1..] + second;
    }
  }
}
