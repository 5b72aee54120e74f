/** The database: every statement and transaction of internal/store/postgres as one atomic function. */
module Tables {
  import opened Wrappers
  import opened Notification
  import opened Rows

  // What the caller of a statement observes: its answer; an error although nothing was committed;
  // or an error although the statement was committed.
  datatype Fault = Answered | Lost | Unseen

  datatype DB = DB(tasks: map<TaskId, Task>, events: map<EventId, Event>)

  function Row(tasks: map<TaskId, Task>, id: TaskId): Option<Task> {
    if id in tasks then Some(tasks[id]) else None
  }

  predicate KeyTaken(db: DB, request: Request) {
    exists id | id in db.tasks :: db.tasks[id].request.SameKey(request)
  }

  predicate SlotTaken(events: map<EventId, Event>, id: TaskId, generation: nat) {
    exists e | e in events :: events[e].aggregate == id && events[e].generation == generation
  }

  // CreateOrGet's transaction: both inserts, or neither when the caller already used the key.
  function Create(db: DB, id: TaskId, request: Request, event: EventId): DB {
    if KeyTaken(db, request) then db
    else DB(db.tasks[id := NewTask(request)], db.events[event := NewEvent(id, 0, request.createdAt)])
  }

  function ClaimDelivery(db: DB, id: TaskId, token: Token, until: Time, at: Time): DB {
    if id in db.tasks && db.tasks[id].status == Pending
    then db.(tasks := db.tasks[id := ClaimRow(db.tasks[id], token, until, at)])
    else db
  }

  function ApplyResult(db: DB, id: TaskId, token: Token, result: AttemptResult): DB {
    if id in db.tasks && Owns(db.tasks[id], token)
    then db.(tasks := db.tasks[id := ApplyRow(db.tasks[id], result)])
    else db
  }

  predicate Reschedules(db: DB, id: TaskId, now: Time) {
    id in db.tasks && !Exhausted(db.tasks[id], now)
  }

  // One turn of ScheduleDue's loop: the unguarded UPDATE, and for a rescheduled task the
  // INSERT with ON CONFLICT (aggregate_id, generation) DO NOTHING.
  function ScheduleOne(db: DB, id: TaskId, now: Time): DB {
    if id !in db.tasks then db
    else
      var next := db.tasks[id].generation + 1;
      DB(db.tasks[id := ScheduleRow(db.tasks[id], now)],
         if Reschedules(db, id, now) && !SlotTaken(db.events, id, next)
         then db.events[Digest(id, next) := NewEvent(id, next, now)]
         else db.events)
  }

  function ScheduleAll(db: DB, rows: seq<TaskId>, now: Time): DB {
    if rows == [] then db
    else ScheduleOne(ScheduleAll(db, rows[..|rows| - 1], now), rows[|rows| - 1], now)
  }

  predicate Distinct<T(==)>(rows: seq<T>) {
    forall i, j | 0 <= i < j < |rows| :: rows[i] != rows[j]
  }

  // The rows ScheduleDue may work on: distinct and due.
  predicate DueRows(db: DB, rows: seq<TaskId>, now: Time) {
    Distinct(rows) && forall id | id in rows :: id in db.tasks && Due(db.tasks[id], now)
  }

  function ReplayDead(db: DB, id: TaskId, now: Time, event: EventId): DB {
    if id in db.tasks && db.tasks[id].status == Dead then
      var t := ReplayRow(db.tasks[id], now);
      DB(db.tasks[id := t], db.events[event := NewEvent(id, t.generation, now)])
    else db
  }

  predicate Unpublished(db: DB, id: TaskId) {
    exists e | e in db.events :: db.events[e].aggregate == id && db.events[e].publishedAt.None?
  }

  predicate Deletable(db: DB, id: TaskId, cutoff: Time) {
    && id in db.tasks
    && Terminal(db.tasks[id].status)
    && db.tasks[id].updatedAt < cutoff
    && !Unpublished(db, id)
  }

  // DeleteTerminalBefore with its ON DELETE CASCADE.
  function Delete(db: DB, rows: set<TaskId>): DB {
    DB(map id | id in db.tasks && id !in rows :: db.tasks[id],
       map e | e in db.events && db.events[e].aggregate !in rows :: db.events[e])
  }

  function ClaimOutbox(db: DB, rows: seq<EventId>, token: Token, until: Time): DB {
    db.(events := map e | e in db.events :: if e in rows then ClaimEvent(db.events[e], token, until) else db.events[e])
  }

  predicate ClaimableRows(db: DB, rows: seq<EventId>, now: Time) {
    Distinct(rows) && forall e | e in rows :: e in db.events && Claimable(db.events[e], now)
  }

  function MarkPublished(db: DB, event: EventId, token: Token, at: Time): DB {
    if event in db.events && MarkMatches(db.events[event], token)
    then db.(events := db.events[event := MarkEvent(db.events[event], at)])
    else db
  }

  // The loop's fold, row by row: a candidate gets its own schedule step, every other row is kept.
  lemma {:induction false} ScheduleAllRows(db: DB, rows: seq<TaskId>, now: Time)
    requires Distinct(rows)
    ensures ScheduleAll(db, rows, now).tasks.Keys == db.tasks.Keys
    ensures forall id | id in db.tasks ::
      ScheduleAll(db, rows, now).tasks[id] == if id in rows then ScheduleRow(db.tasks[id], now) else db.tasks[id]
  {
    if rows == [] {
    } else {
      var init := rows[..|rows| - 1];
      assert rows == init + [rows[|rows| - 1]];
      ScheduleAllRows(db, init, now);
    }
  }

  // A digest-named event belongs to the slot its digest was taken of.
  predicate DigestsName(events: map<EventId, Event>) {
    forall e | e in events && e.Digest? :: events[e].aggregate == e.task && events[e].generation == e.generation
  }

  lemma DigestSlots(events: map<EventId, Event>)
    requires DigestsName(events)
    ensures forall e | e in events && e.Digest? :: SlotTaken(events, e.task, e.generation)
  {}

  // Candidate e.task was rescheduled into generation e.generation, and the slot was free.
  predicate NewlyScheduled(db: DB, rows: seq<TaskId>, now: Time, e: EventId) {
    && e.Digest?
    && e.task in rows
    && Reschedules(db, e.task, now)
    && e.generation == db.tasks[e.task].generation + 1
    && !SlotTaken(db.events, e.task, e.generation)
  }

  // `after` holds exactly the old events, untouched, and one event per rescheduled candidate
  // whose slot was free.
  ghost predicate EventsScheduled(db: DB, rows: seq<TaskId>, now: Time, after: map<EventId, Event>) {
    && (forall e | e in db.events :: e in after && after[e] == db.events[e])
    && (forall e | NewlyScheduled(db, rows, now, e) :: e in after)
    && (forall e | e in after && e !in db.events ::
          NewlyScheduled(db, rows, now, e) && after[e] == NewEvent(e.task, e.generation, now))
  }

  lemma {:induction false} ScheduleAllEvents(db: DB, rows: seq<TaskId>, now: Time)
    requires Distinct(rows)
    requires DigestsName(db.events)
    ensures EventsScheduled(db, rows, now, ScheduleAll(db, rows, now).events)
  {
    if rows == [] {
      forall e ensures !NewlyScheduled(db, rows, now, e) {}
    } else {
      var init, id := rows[..|rows| - 1], rows[|rows| - 1];
      ScheduleAllEvents(db, init, now);
      ScheduleAllRows(db, init, now);
      assert ScheduleAll(db, init, now).tasks.Keys == db.tasks.Keys;
      ScheduledOneMore(db, init, id, now, ScheduleAll(db, init, now));
      assert init + [id] == rows;
    }
  }

  lemma ScheduledOneMore(db: DB, init: seq<TaskId>, id: TaskId, now: Time, mid: DB)
    requires id !in init && EventsScheduled(db, init, now, mid.events)
    requires DigestsName(db.events)
    requires Row(mid.tasks, id) == Row(db.tasks, id)
    ensures EventsScheduled(db, init + [id], now, ScheduleOne(mid, id, now).events)
  {
    var after := ScheduleOne(mid, id, now).events;
    forall e ensures NewlyScheduled(db, init + [id], now, e) <==>
        NewlyScheduled(db, init, now, e) || (e.Digest? && e.task == id && NewlyScheduled(db, [id], now, e)) {}
    if id in db.tasks {
      var g := db.tasks[id].generation + 1;
      SlotUntouched(db, init, now, mid.events, id, g);
      forall e | e in db.events ensures e in after && after[e] == db.events[e] {
        assert e in mid.events;
        assert e == Digest(id, g) ==> SlotTaken(db.events, id, g);
      }
    }
  }

  // Scheduling other rows leaves a row's slots alone.
  lemma SlotUntouched(db: DB, init: seq<TaskId>, now: Time, after: map<EventId, Event>, id: TaskId, g: nat)
    requires id !in init && EventsScheduled(db, init, now, after)
    ensures SlotTaken(after, id, g) <==> SlotTaken(db.events, id, g)
  {
    if SlotTaken(db.events, id, g) {
      var e :| e in db.events && db.events[e].aggregate == id && db.events[e].generation == g;
      assert e in after && after[e] == db.events[e];
    }
    if SlotTaken(after, id, g) {
      var e :| e in after && after[e].aggregate == id && after[e].generation == g;
      assert e in db.events;
    }
  }
}
