/** The transactions at the granularity of their statements: FOR UPDATE SKIP LOCKED and INSERT take
    row and key locks, what a transaction writes stays private until its commit, other statements
    wait for the locks. Every interleaving ends in a database that atomic transactions on disjoint
    rows would have made. */
module RowLocks {
  import opened Notification
  import opened Rows
  import opened Tables

  type TxId = nat

  // An open transaction and what it holds: ScheduleDue after its SELECT, having worked on the
  // first `done` rows; ReplayDeadAtomic after its UPDATE; ClaimOutbox after the SELECT it contains;
  // CreateOrGet's after its first INSERT.
  datatype Txn =
    | Scheduling(now: Time, rows: seq<TaskId>, seen: map<TaskId, Task>, done: nat,
                 writes: map<TaskId, Task>, inserts: map<EventId, Event>)
    | Replaying(id: TaskId, now: Time, event: EventId, row: Task)
    | Claiming(now: Time, events: seq<EventId>, token: Token, until: Time)
    | Creating(id: TaskId, request: Request, event: EventId)

  datatype State = State(db: DB, open: map<TxId, Txn>)

  // A statement that finds its rows by their ids and is a transaction of its own.
  datatype Op =
    | Claim(id: TaskId, token: Token, until: Time, at: Time)
    | Apply(id: TaskId, token: Token, result: AttemptResult)
    | DeleteTerminal(cutoff: Time, doomed: set<TaskId>)
    | Mark(event: EventId, token: Token, at: Time)

  datatype Step =
    | SelectDue(x: TxId, now: Time, rows: seq<TaskId>)
    | UpdateNext(x: TxId)
    | ReplayUpdate(x: TxId, id: TaskId, now: Time, event: EventId)
    | SelectEvents(x: TxId, now: Time, events: seq<EventId>, token: Token, until: Time)
    | InsertTask(x: TxId, id: TaskId, request: Request, event: EventId)
    | Commit(x: TxId)
    | Rollback(x: TxId)
    | Single(op: Op)

  function Exec(db: DB, op: Op): DB {
    match op
    case Claim(id, token, until, at) => ClaimDelivery(db, id, token, until, at)
    case Apply(id, token, result) => ApplyResult(db, id, token, result)
    case DeleteTerminal(cutoff, doomed) => Delete(db, doomed)
    case Mark(event, token, at) => MarkPublished(db, event, token, at)
  }

  // The rows a statement writes, and so must find unlocked. A deletion cascades to events.

  function Touches(op: Op): set<TaskId> {
    match op
    case Claim(id, _, _, _) => {id}
    case Apply(id, _, _) => {id}
    case DeleteTerminal(_, doomed) => doomed
    case Mark(_, _, _) => {}
  }

  function TouchesEvents(db: DB, op: Op): set<EventId> {
    match op
    case DeleteTerminal(_, doomed) => set e | e in db.events && db.events[e].aggregate in doomed
    case Mark(event, _, _) => {event}
    case _ => {}
  }

  ghost predicate Allowed(db: DB, op: Op) {
    op.DeleteTerminal? ==> forall id | id in op.doomed :: Deletable(db, id, op.cutoff)
  }

  function Locks(tx: Txn): set<TaskId> {
    match tx
    case Scheduling(_, rows, _, _, _, _) => set id | id in rows
    case Replaying(id, _, _, _) => {id}
    case _ => {}
  }

  function EventLocks(tx: Txn): set<EventId> {
    if tx.Claiming? then set e | e in tx.events else {}
  }

  ghost predicate Unlocked(s: State, ids: set<TaskId>, events: set<EventId>) {
    forall x | x in s.open :: Locks(s.open[x]) !! ids && EventLocks(s.open[x]) !! events
  }

  // The event id that a transaction has drawn.
  predicate Draws(tx: Txn, event: EventId) {
    (tx.Replaying? || tx.Creating?) && tx.event == event
  }

  // An event id drawn by no open transaction.
  ghost predicate FreshFor(s: State, event: EventId) {
    event.Drawn? && event !in s.db.events && forall x | x in s.open :: !Draws(s.open[x], event)
  }

  // The unique index on caller and key, and the primary key: a second INSERT waits for the first.
  ghost predicate KeyFree(s: State, id: TaskId, request: Request) {
    && !KeyTaken(s.db, request) && id !in s.db.tasks
    && forall x | x in s.open && s.open[x].Creating? ::
         s.open[x].id != id && !s.open[x].request.SameKey(request)
  }

  ghost predicate Enabled(s: State, step: Step) {
    match step
    case SelectDue(x, now, rows) => x !in s.open && DueRows(s.db, rows, now) && Unlocked(s, set id | id in rows, {})
    case UpdateNext(x) =>
      x in s.open && s.open[x].Scheduling? && s.open[x].done < |s.open[x].rows|
      && s.open[x].rows[s.open[x].done] in s.open[x].seen
    case ReplayUpdate(x, id, now, event) =>
      x !in s.open && id in s.db.tasks && s.db.tasks[id].status == Dead && Unlocked(s, {id}, {}) && FreshFor(s, event)
    case SelectEvents(x, now, events, token, until) =>
      x !in s.open && ClaimableRows(s.db, events, now) && Unlocked(s, {}, set e | e in events)
    case InsertTask(x, id, request, event) => x !in s.open && KeyFree(s, id, request) && FreshFor(s, event)
    case Commit(x) => x in s.open && (s.open[x].Scheduling? ==> s.open[x].done == |s.open[x].rows|)
    case Rollback(x) => x in s.open
    case Single(op) => Allowed(s.db, op) && Unlocked(s, Touches(op), TouchesEvents(s.db, op))
  }

  // The UPDATE of one loop turn is guarded by the id alone: the columns it sets come from the
  // candidate read by the SELECT, all others from the row as it is now.
  function UpdateWith(current: Task, item: Task, now: Time): Task {
    if Exhausted(item, now) then DeadRow(current, now)
    else RescheduleRow(current, now).(
      generation := item.generation + 1,
      lastErrorCode := if item.status == Delivering then "delivery_lease_expired" else "")
  }

  // One turn of the loop, private to the transaction.
  function Turn(db: DB, tx: Txn): Txn
    requires tx.Scheduling? && tx.done < |tx.rows| && tx.rows[tx.done] in tx.seen
  {
    var id := tx.rows[tx.done];
    var item := tx.seen[id];
    var g := item.generation + 1;
    tx.(done := tx.done + 1,
        writes := if id in db.tasks then tx.writes[id := UpdateWith(db.tasks[id], item, tx.now)] else tx.writes,
        inserts := if Exhausted(item, tx.now) || SlotTaken(db.events, id, g) then tx.inserts
                   else tx.inserts[Digest(id, g) := NewEvent(id, g, tx.now)])
  }

  function Committed(db: DB, tx: Txn): DB {
    match tx
    case Scheduling(_, _, _, _, writes, inserts) => DB(db.tasks + writes, db.events + inserts)
    case Replaying(id, now, event, row) =>
      DB(db.tasks[id := row], db.events[event := NewEvent(id, row.generation, now)])
    case Claiming(now, events, token, until) => Tables.ClaimOutbox(db, events, token, until)
    case Creating(id, request, event) =>
      DB(db.tasks[id := NewTask(request)], db.events[event := NewEvent(id, 0, request.createdAt)])
  }

  // What a first statement opens.
  function Opened(db: DB, step: Step): Txn
    requires step.SelectDue? || step.ReplayUpdate? || step.SelectEvents? || step.InsertTask?
    requires step.SelectDue? ==> forall id | id in step.rows :: id in db.tasks
    requires step.ReplayUpdate? ==> step.id in db.tasks
  {
    match step
    case SelectDue(_, now, rows) => Scheduling(now, rows, map id | id in rows :: db.tasks[id], 0, map[], map[])
    case ReplayUpdate(_, id, now, event) => Replaying(id, now, event, ReplayRow(db.tasks[id], now))
    case SelectEvents(_, now, events, token, until) => Claiming(now, events, token, until)
    case InsertTask(_, id, request, event) => Creating(id, request, event)
  }

  ghost function Do(s: State, step: Step): State
    requires Enabled(s, step)
  {
    match step
    case UpdateNext(x) => s.(open := s.open[x := Turn(s.db, s.open[x])])
    case Commit(x) => State(Committed(s.db, s.open[x]), s.open - {x})
    case Rollback(x) => s.(open := s.open - {x})
    case Single(op) => s.(db := Exec(s.db, op))
    case _ => s.(open := s.open[step.x := Opened(s.db, step)])
  }

  ghost predicate Runs(s: State, steps: seq<Step>, t: State)
    decreases |steps|
  {
    if steps == [] then s == t
    else Enabled(s, steps[0]) && Runs(Do(s, steps[0]), steps[1..], t)
  }

  // ---------- the atomic level ----------

  datatype Atomic =
    | ScheduleDue(now: Time, rows: seq<TaskId>)
    | Replay(id: TaskId, now: Time, event: EventId)
    | ClaimEvents(events: seq<EventId>, now: Time, token: Token, until: Time)
    | Create(id: TaskId, request: Request, event: EventId)
    | Statement(op: Op)

  ghost predicate AtomicAllowed(db: DB, a: Atomic) {
    match a
    case ScheduleDue(now, rows) => DueRows(db, rows, now)
    case Replay(id, now, event) => event.Drawn? && event !in db.events
    case ClaimEvents(events, now, token, until) => ClaimableRows(db, events, now)
    case Create(id, request, event) => id !in db.tasks && event.Drawn? && event !in db.events
    case Statement(op) => Allowed(db, op)
  }

  function AtomicExec(db: DB, a: Atomic): DB {
    match a
    case ScheduleDue(now, rows) => ScheduleAll(db, rows, now)
    case Replay(id, now, event) => ReplayDead(db, id, now, event)
    case ClaimEvents(events, now, token, until) => Tables.ClaimOutbox(db, events, token, until)
    case Create(id, request, event) => Tables.Create(db, id, request, event)
    case Statement(op) => Exec(db, op)
  }

  ghost predicate AtomicRuns(db: DB, actions: seq<Atomic>, db': DB)
    decreases |actions|
  {
    if actions == [] then db == db'
    else AtomicAllowed(db, actions[0]) && AtomicRuns(AtomicExec(db, actions[0]), actions[1..], db')
  }

  function ActionOf(tx: Txn): Atomic {
    match tx
    case Scheduling(now, rows, _, _, _, _) => ScheduleDue(now, rows)
    case Replaying(id, now, event, _) => Replay(id, now, event)
    case Claiming(now, events, token, until) => ClaimEvents(events, now, token, until)
    case Creating(id, request, event) => Create(id, request, event)
  }

  // A transaction takes effect at its commit.
  ghost function Effect(s: State, step: Step): seq<Atomic>
    requires Enabled(s, step)
  {
    match step
    case Commit(x) => [ActionOf(s.open[x])]
    case Single(op) => [Statement(op)]
    case _ => []
  }

  ghost function Effects(s: State, steps: seq<Step>, t: State): seq<Atomic>
    requires Runs(s, steps, t)
    decreases |steps|
  {
    if steps == [] then [] else Effect(s, steps[0]) + Effects(Do(s, steps[0]), steps[1..], t)
  }

  // ---------- the invariant: a lock freezes its row ----------

  ghost predicate TxOk(db: DB, tx: Txn) {
    match tx
    case Scheduling(now, rows, seen, done, writes, inserts) =>
      && done <= |rows| && DueRows(db, rows, now)
      && (forall id | id in rows :: id in seen && seen[id] == db.tasks[id])
      && (forall id :: id in writes <==> id in rows[..done])
      && (forall id | id in rows[..done] :: writes[id] == ScheduleRow(db.tasks[id], now))
      && (forall e :: e in inserts <==> NewlyScheduled(db, rows[..done], now, e))
      && (forall e | NewlyScheduled(db, rows[..done], now, e) :: inserts[e] == NewEvent(e.task, e.generation, now))
    case Replaying(id, now, event, row) =>
      && id in db.tasks && db.tasks[id].status == Dead && row == ReplayRow(db.tasks[id], now)
      && event.Drawn? && event !in db.events
    case Claiming(now, events, token, until) => ClaimableRows(db, events, now)
    case Creating(id, request, event) =>
      !KeyTaken(db, request) && id !in db.tasks && event.Drawn? && event !in db.events
  }

  // Two transactions do not get in each other's way.
  ghost predicate Apart(a: Txn, b: Txn) {
    && Locks(a) !! Locks(b)
    && EventLocks(a) !! EventLocks(b)
    && ((a.Replaying? || a.Creating?) ==> !Draws(b, a.event))
    && (a.Creating? && b.Creating? ==> a.id != b.id && !a.request.SameKey(b.request))
  }

  ghost predicate Inv(s: State) {
    && DigestsName(s.db.events)
    && (forall x | x in s.open :: TxOk(s.db, s.open[x]))
    && (forall x, y | x in s.open && y in s.open && x != y :: Apart(s.open[x], s.open[y]))
  }

  // Between db and db' the rows in `ids` and their slots stay as they are.
  ghost predicate Frozen(db: DB, db': DB, ids: set<TaskId>) {
    forall id | id in ids ::
      Row(db.tasks, id) == Row(db'.tasks, id)
      && forall g: nat :: SlotTaken(db'.events, id, g) <==> SlotTaken(db.events, id, g)
  }

  // What transaction tx has locked, checked or reserved is in db' as it was in db.
  ghost predicate Respects(db: DB, db': DB, tx: Txn) {
    && Frozen(db, db', Locks(tx))
    && (forall e | e in EventLocks(tx) && e in db.events :: e in db'.events && db'.events[e] == db.events[e])
    && ((tx.Replaying? || tx.Creating?) ==> tx.event !in db'.events)
    && (tx.Creating? ==> tx.id !in db'.tasks && !KeyTaken(db', tx.request))
  }

  lemma TxStays(db: DB, db': DB, tx: Txn)
    requires TxOk(db, tx) && Respects(db, db', tx)
    ensures TxOk(db', tx)
  {
    match tx
    case Scheduling(now, rows, seen, done, writes, inserts) => ScheduleStays(db, db', tx);
    case Replaying(id, now, event, row) =>
      assert id in Locks(tx);
    case Claiming(now, events, token, until) =>
      forall e | e in events ensures e in db'.events && Claimable(db'.events[e], now) {
        assert e in EventLocks(tx);
      }
    case Creating(id, request, event) =>
  }

  lemma ScheduleStays(db: DB, db': DB, tx: Txn)
    requires tx.Scheduling? && TxOk(db, tx) && Frozen(db, db', Locks(tx))
    ensures TxOk(db', tx)
  {
    forall id | id in tx.rows ensures Row(db.tasks, id) == Row(db'.tasks, id) {
      assert id in Locks(tx);
    }
    var done := tx.rows[..tx.done];
    forall e ensures NewlyScheduled(db', done, tx.now, e) <==> NewlyScheduled(db, done, tx.now, e) {
      if e.Digest? && e.task in done {
        assert e.task in Locks(tx);
      }
    }
  }

  // Statements freeze every row they do not touch.
  lemma SlotsFrozen(db: DB, db': DB, id: TaskId)
    requires forall e | e in db.events && db.events[e].aggregate == id ::
      e in db'.events && db'.events[e].aggregate == id && db'.events[e].generation == db.events[e].generation
    requires forall e | e in db'.events && db'.events[e].aggregate == id ::
      e in db.events && db.events[e].aggregate == id && db'.events[e].generation == db.events[e].generation
    ensures forall g: nat :: SlotTaken(db'.events, id, g) <==> SlotTaken(db.events, id, g)
  {
    forall g: nat ensures SlotTaken(db'.events, id, g) <==> SlotTaken(db.events, id, g) {
      if SlotTaken(db.events, id, g) {
        var e :| e in db.events && db.events[e].aggregate == id && db.events[e].generation == g;
        assert e in db'.events && db'.events[e].generation == g;
      }
      if SlotTaken(db'.events, id, g) {
        var e :| e in db'.events && db'.events[e].aggregate == id && db'.events[e].generation == g;
        assert e in db.events && db.events[e].generation == g;
      }
    }
  }

  lemma ExecFreezes(db: DB, op: Op, ids: set<TaskId>)
    requires Allowed(db, op) && Touches(op) !! ids
    ensures Frozen(db, Exec(db, op), ids)
  {
    forall id | id in ids
      ensures Row(db.tasks, id) == Row(Exec(db, op).tasks, id)
      ensures forall g: nat :: SlotTaken(Exec(db, op).events, id, g) <==> SlotTaken(db.events, id, g)
    {
      SlotsFrozen(db, Exec(db, op), id);
    }
  }

  // No statement invents a row, and none changes whose request a row is.
  lemma ExecAddsNothing(db: DB, op: Op)
    ensures Exec(db, op).tasks.Keys <= db.tasks.Keys && Exec(db, op).events.Keys <= db.events.Keys
    ensures forall id | id in Exec(db, op).tasks :: Exec(db, op).tasks[id].request == db.tasks[id].request
  {}

  lemma ExecRespects(db: DB, op: Op, tx: Txn)
    requires TxOk(db, tx) && Allowed(db, op) && Touches(op) !! Locks(tx) && TouchesEvents(db, op) !! EventLocks(tx)
    ensures Respects(db, Exec(db, op), tx)
  {
    ExecFreezes(db, op, Locks(tx));
    ExecAddsNothing(db, op);
    SameKeys(db, Exec(db, op), tx);
    forall e | e in EventLocks(tx) && e in db.events
      ensures e in Exec(db, op).events && Exec(db, op).events[e] == db.events[e]
    {
      assert e !in TouchesEvents(db, op);
    }
  }

  lemma SameKeys(db: DB, db': DB, tx: Txn)
    requires tx.Creating? ==> !KeyTaken(db, tx.request)
    requires forall id | id in db'.tasks :: id in db.tasks && db'.tasks[id].request == db.tasks[id].request
    ensures tx.Creating? ==> !KeyTaken(db', tx.request)
  {}

  // ---------- a commit respects the other open transactions ----------

  lemma ScheduleCommitFreezes(db: DB, tx: Txn, ids: set<TaskId>)
    requires tx.Scheduling? && TxOk(db, tx) && Locks(tx) !! ids && DigestsName(db.events)
    ensures Frozen(db, Committed(db, tx), ids)
    ensures forall e | e in db.events :: e in Committed(db, tx).events && Committed(db, tx).events[e] == db.events[e]
  {
    DigestSlots(db.events);
    forall e | e in tx.inserts
      ensures e.Digest? && e.task in tx.rows && tx.inserts[e].aggregate == e.task && e !in db.events
    {
      assert NewlyScheduled(db, tx.rows[..tx.done], tx.now, e);
    }
    forall id | id in ids
      ensures Row(db.tasks, id) == Row(Committed(db, tx).tasks, id)
      ensures forall g: nat :: SlotTaken(Committed(db, tx).events, id, g) <==> SlotTaken(db.events, id, g)
    {
      assert id !in tx.rows;
      SlotsFrozen(db, Committed(db, tx), id);
    }
  }

  lemma ScheduleCommitRespects(db: DB, tx: Txn, other: Txn)
    requires tx.Scheduling? && TxOk(db, tx) && TxOk(db, other) && Apart(tx, other) && DigestsName(db.events)
    ensures Respects(db, Committed(db, tx), other)
  {
    ScheduleCommitFreezes(db, tx, Locks(other));
    forall id | id in Committed(db, tx).tasks
      ensures id in db.tasks && Committed(db, tx).tasks[id].request == db.tasks[id].request
    {
      if id in tx.writes {
        assert id in tx.rows[..tx.done] && id in tx.rows;
      }
    }
    SameKeys(db, Committed(db, tx), other);
  }

  lemma ReplayCommitRespects(db: DB, tx: Txn, other: Txn)
    requires tx.Replaying? && TxOk(db, tx) && TxOk(db, other) && Apart(tx, other)
    ensures Respects(db, Committed(db, tx), other)
  {
    var db' := Committed(db, tx);
    forall id | id in Locks(other)
      ensures Row(db.tasks, id) == Row(db'.tasks, id)
      ensures forall g: nat :: SlotTaken(db'.events, id, g) <==> SlotTaken(db.events, id, g)
    {
      SlotsFrozen(db, db', id);
    }
    SameKeys(db, db', other);
  }

  lemma ClaimCommitRespects(db: DB, tx: Txn, other: Txn)
    requires tx.Claiming? && TxOk(db, tx) && TxOk(db, other) && Apart(tx, other)
    ensures Respects(db, Committed(db, tx), other)
  {
    var db' := Committed(db, tx);
    forall id | id in Locks(other)
      ensures forall g: nat :: SlotTaken(db'.events, id, g) <==> SlotTaken(db.events, id, g)
    {
      SlotsFrozen(db, db', id);
    }
    forall e | e in EventLocks(other) && e in db.events ensures db'.events[e] == db.events[e] {
      assert e !in EventLocks(tx);
    }
    SameKeys(db, db', other);
  }

  lemma CreateCommitRespects(db: DB, tx: Txn, other: Txn)
    requires tx.Creating? && TxOk(db, tx) && TxOk(db, other) && Apart(tx, other)
    ensures Respects(db, Committed(db, tx), other)
  {
    var db' := Committed(db, tx);
    forall id | id in Locks(other)
      ensures Row(db.tasks, id) == Row(db'.tasks, id)
      ensures forall g: nat :: SlotTaken(db'.events, id, g) <==> SlotTaken(db.events, id, g)
    {
      assert id in db.tasks && id != tx.id;
      SlotsFrozen(db, db', id);
    }
    assert other.Creating? ==> !KeyTaken(db', other.request) by {
      assert NewTask(tx.request).request == tx.request;
    }
  }

  lemma CommitRespects(db: DB, tx: Txn, other: Txn)
    requires TxOk(db, tx) && TxOk(db, other) && Apart(tx, other) && DigestsName(db.events)
    ensures Respects(db, Committed(db, tx), other)
  {
    match tx
    case Scheduling(_, _, _, _, _, _) => ScheduleCommitRespects(db, tx, other);
    case Replaying(_, _, _, _) => ReplayCommitRespects(db, tx, other);
    case Claiming(_, _, _, _) => ClaimCommitRespects(db, tx, other);
    case Creating(_, _, _) => CreateCommitRespects(db, tx, other);
  }

  // ---------- commit is the atomic transaction ----------

  lemma CommitEvents(db: DB, tx: Txn)
    requires TxOk(db, tx) && tx.Scheduling? && tx.done == |tx.rows| && DigestsName(db.events)
    ensures db.events + tx.inserts == ScheduleAll(db, tx.rows, tx.now).events
  {
    assert tx.rows[..tx.done] == tx.rows;
    ScheduleAllEvents(db, tx.rows, tx.now);
    DigestSlots(db.events);
    SameEvents(db, tx.rows, tx.now, tx.inserts, ScheduleAll(db, tx.rows, tx.now).events);
  }

  lemma SameEvents(db: DB, rows: seq<TaskId>, now: Time, inserts: map<EventId, Event>, all: map<EventId, Event>)
    requires EventsScheduled(db, rows, now, all)
    requires forall e :: e in inserts <==> NewlyScheduled(db, rows, now, e)
    requires forall e | e in inserts :: inserts[e] == NewEvent(e.task, e.generation, now)
    requires forall e | e in db.events && e.Digest? :: SlotTaken(db.events, e.task, e.generation)
    ensures db.events + inserts == all
  {
    forall e | e in inserts ensures e !in db.events {
      assert NewlyScheduled(db, rows, now, e);
    }
  }

  lemma ScheduleCommitIsAtomic(db: DB, tx: Txn)
    requires TxOk(db, tx) && tx.Scheduling? && tx.done == |tx.rows| && DigestsName(db.events)
    ensures Committed(db, tx) == ScheduleAll(db, tx.rows, tx.now)
  {
    assert tx.rows[..tx.done] == tx.rows;
    ScheduleAllRows(db, tx.rows, tx.now);
    assert db.tasks + tx.writes == ScheduleAll(db, tx.rows, tx.now).tasks;
    CommitEvents(db, tx);
  }

  // What a transaction commits is its atomic action on the tables as they are at its commit.
  lemma CommitIsAtomic(db: DB, tx: Txn)
    requires TxOk(db, tx) && (tx.Scheduling? ==> tx.done == |tx.rows|) && DigestsName(db.events)
    ensures AtomicAllowed(db, ActionOf(tx)) && Committed(db, tx) == AtomicExec(db, ActionOf(tx))
  {
    if tx.Scheduling? {
      ScheduleCommitIsAtomic(db, tx);
    }
  }

  lemma TurnWrites(db: DB, tx: Txn)
    requires TxOk(db, tx) && tx.Scheduling? && tx.done < |tx.rows|
    ensures forall id :: id in Turn(db, tx).writes <==> id in tx.rows[..tx.done + 1]
    ensures forall id | id in tx.rows[..tx.done + 1] ::
      id in db.tasks && Turn(db, tx).writes[id] == ScheduleRow(db.tasks[id], tx.now)
  {
    var id, done := tx.rows[tx.done], tx.rows[..tx.done];
    assert tx.rows[..tx.done + 1] == done + [id];
    assert UpdateWith(db.tasks[id], tx.seen[id], tx.now) == ScheduleRow(db.tasks[id], tx.now);
    forall d | d in done ensures d in tx.rows {}
  }

  lemma OneMoreScheduled(db: DB, done: seq<TaskId>, id: TaskId, now: Time, e: EventId)
    ensures NewlyScheduled(db, done + [id], now, e) <==>
      NewlyScheduled(db, done, now, e) || NewlyScheduled(db, [id], now, e)
  {}

  // What one turn inserts.
  lemma TurnInsert(db: DB, tx: Txn, e: EventId)
    requires tx.Scheduling? && tx.done < |tx.rows|
    requires var id := tx.rows[tx.done]; id in tx.seen && id in db.tasks && tx.seen[id] == db.tasks[id]
    ensures e in Turn(db, tx).inserts <==> e in tx.inserts || NewlyScheduled(db, [tx.rows[tx.done]], tx.now, e)
    ensures NewlyScheduled(db, [tx.rows[tx.done]], tx.now, e) ==>
      Turn(db, tx).inserts[e] == NewEvent(e.task, e.generation, tx.now)
    ensures e in tx.inserts && !NewlyScheduled(db, [tx.rows[tx.done]], tx.now, e) ==>
      Turn(db, tx).inserts[e] == tx.inserts[e]
  {}

  lemma TurnInserts(db: DB, tx: Txn)
    requires TxOk(db, tx) && tx.Scheduling? && tx.done < |tx.rows|
    ensures forall e :: e in Turn(db, tx).inserts <==> NewlyScheduled(db, tx.rows[..tx.done + 1], tx.now, e)
    ensures forall e | NewlyScheduled(db, tx.rows[..tx.done + 1], tx.now, e) ::
      Turn(db, tx).inserts[e] == NewEvent(e.task, e.generation, tx.now)
  {
    var id, done := tx.rows[tx.done], tx.rows[..tx.done];
    assert tx.rows[..tx.done + 1] == done + [id];
    assert tx.seen[id] == db.tasks[id];
    forall e
      ensures e in Turn(db, tx).inserts <==> NewlyScheduled(db, done + [id], tx.now, e)
      ensures NewlyScheduled(db, done + [id], tx.now, e) ==>
        Turn(db, tx).inserts[e] == NewEvent(e.task, e.generation, tx.now)
    {
      TurnInsert(db, tx, e);
      OneMoreScheduled(db, done, id, tx.now, e);
    }
  }

  lemma TurnKeeps(db: DB, tx: Txn)
    requires TxOk(db, tx) && tx.Scheduling? && tx.done < |tx.rows|
    ensures TxOk(db, Turn(db, tx)) && Locks(Turn(db, tx)) == Locks(tx)
  {
    TurnWrites(db, tx);
    TurnInserts(db, tx);
    TurnFrame(db, tx);
  }

  lemma TurnFrame(db: DB, tx: Txn)
    requires tx.Scheduling? && tx.done < |tx.rows| && tx.rows[tx.done] in tx.seen
    ensures var t := Turn(db, tx); t == tx.(done := tx.done + 1, writes := t.writes, inserts := t.inserts)
  {}

  // ---------- every step keeps the invariant ----------

  lemma CommitKeeps(s: State, x: TxId)
    requires Inv(s) && Enabled(s, Commit(x))
    ensures Inv(Do(s, Commit(x)))
  {
    var tx, db' := s.open[x], Committed(s.db, s.open[x]);
    forall y | y in s.open && y != x ensures TxOk(db', s.open[y]) {
      CommitRespects(s.db, tx, s.open[y]);
      TxStays(s.db, db', s.open[y]);
    }
    CommitNames(s.db, tx);
  }

  lemma CommitNames(db: DB, tx: Txn)
    requires TxOk(db, tx) && DigestsName(db.events)
    ensures DigestsName(Committed(db, tx).events)
  {}

  lemma SingleKeeps(s: State, op: Op)
    requires Inv(s) && Enabled(s, Single(op))
    ensures Inv(Do(s, Single(op)))
  {
    forall x | x in s.open ensures TxOk(Exec(s.db, op), s.open[x]) {
      ExecRespects(s.db, op, s.open[x]);
      TxStays(s.db, Exec(s.db, op), s.open[x]);
    }
  }

  lemma OpenKeeps(s: State, step: Step)
    requires Inv(s) && Enabled(s, step)
    requires step.SelectDue? || step.ReplayUpdate? || step.SelectEvents? || step.InsertTask?
    ensures Inv(Do(s, step))
  {
    var tx := Opened(s.db, step);
    assert TxOk(s.db, tx) by {
      assert step.SelectDue? ==> step.rows[..0] == [];
    }
    forall y | y in s.open ensures Apart(tx, s.open[y]) && Apart(s.open[y], tx) {}
  }

  lemma UpdateKeeps(s: State, x: TxId)
    requires Inv(s) && Enabled(s, UpdateNext(x))
    ensures Inv(Do(s, UpdateNext(x)))
  {
    TurnKeeps(s.db, s.open[x]);
    forall y | y in s.open && y != x
      ensures Apart(Turn(s.db, s.open[x]), s.open[y]) && Apart(s.open[y], Turn(s.db, s.open[x]))
    {
      TurnApart(s.db, s.open[x], s.open[y]);
    }
  }

  lemma TurnApart(db: DB, tx: Txn, other: Txn)
    requires tx.Scheduling? && tx.done < |tx.rows| && tx.rows[tx.done] in tx.seen
    requires Apart(tx, other) && Apart(other, tx)
    ensures Apart(Turn(db, tx), other) && Apart(other, Turn(db, tx))
  {
    assert Locks(Turn(db, tx)) == Locks(tx);
  }

  lemma StepKeeps(s: State, step: Step)
    requires Inv(s) && Enabled(s, step)
    ensures Inv(Do(s, step))
  {
    match step
    case UpdateNext(x) => UpdateKeeps(s, x);
    case Commit(x) => CommitKeeps(s, x);
    case Rollback(x) =>
    case Single(op) => SingleKeeps(s, op);
    case _ => OpenKeeps(s, step);
  }

  // The step's effect on the committed tables is its atomic action, or nothing.
  lemma StepRefines(s: State, step: Step)
    requires Inv(s) && Enabled(s, step)
    ensures AtomicRuns(s.db, Effect(s, step), Do(s, step).db)
  {
    if step.Commit? {
      CommitIsAtomic(s.db, s.open[step.x]);
      assert Effect(s, step)[1..] == [];
    } else if step.Single? {
      assert Effect(s, step)[1..] == [];
    }
  }

  lemma {:induction false} AtomicJoin(db: DB, first: seq<Atomic>, mid: DB, second: seq<Atomic>, db': DB)
    requires AtomicRuns(db, first, mid) && AtomicRuns(mid, second, db')
    ensures AtomicRuns(db, first + second, db')
    decreases |first|
  {
    if first == [] {
      assert first + second == second;
    } else {
      AtomicJoin(AtomicExec(db, first[0]), first[1..], mid, second, db');
      assert (first + second)[1..] == first[1..] + second;
    }
  }

  // Any interleaving of selects, inserts, private updates, commits, rollbacks and single statements
  // leaves the tables as the atomic transactions would, taken in the order of their commits; each
  // is still allowed then, although its rows were chosen earlier.
  lemma {:induction false} LocksRefineAtomic(s: State, steps: seq<Step>, t: State)
    requires Inv(s) && Runs(s, steps, t)
    ensures AtomicRuns(s.db, Effects(s, steps, t), t.db) && Inv(t)
    decreases |steps|
  {
    if steps == [] {
    } else {
      StepKeeps(s, steps[0]);
      StepRefines(s, steps[0]);
      var mid := Do(s, steps[0]);
      LocksRefineAtomic(mid, steps[1..], t);
      AtomicJoin(s.db, Effect(s, steps[0]), mid.db, Effects(mid, steps[1..], t), t.db);
    }
  }

  lemma EmptyHolds(db: DB)
    requires DigestsName(db.events)
    ensures Inv(State(db, map[]))
  {}

  // Two schedulers never work on the same row, and two publishers never claim the same event.
  lemma WorkIsDisjoint(s: State, x: TxId, y: TxId)
    requires Inv(s) && x in s.open && y in s.open && x != y
    ensures s.open[x].Scheduling? && s.open[y].Scheduling? ==>
      forall id | id in s.open[x].rows :: id !in s.open[y].rows
    ensures s.open[x].Claiming? && s.open[y].Claiming? ==>
      forall e | e in s.open[x].events :: e !in s.open[y].events
  {
    var a, b := s.open[x], s.open[y];
    assert Apart(a, b);
    if a.Scheduling? && b.Scheduling? {
      forall id | id in a.rows ensures id !in b.rows {
        assert id in Locks(a);
        assert id !in Locks(b);
      }
    }
    if a.Claiming? && b.Claiming? {
      forall e | e in a.events ensures e !in b.events {
        assert e in EventLocks(a);
        assert e !in EventLocks(b);
      }
    }
  }

  // The locks are what makes the id-only guard safe. A scheduler has selected an expired lease; the
  // lease's own result arrives and would deliver the task. The lock makes it wait. Let in, it
  // would be committed, and then undone by the scheduler's update.
  lemma UnlockedUpdateLosesDelivery(db: DB, x: TxId, id: TaskId, token: Token, now: Time, r: AttemptResult)
    requires id in db.tasks && Owns(db.tasks[id], token) && Due(db.tasks[id], now) && r.outcome == Succeeded
    ensures var selected := SelectDue(x, now, [id]);
      && Enabled(State(db, map[]), selected)
      && var s := Do(State(db, map[]), selected);
         !Enabled(s, Single(Apply(id, token, r)))
         && var let := s.(db := Exec(s.db, Apply(id, token, r)));
            let.db.tasks[id].status == Delivered
            && Enabled(let, UpdateNext(x)) && Enabled(Do(let, UpdateNext(x)), Commit(x))
            && var end := Do(Do(let, UpdateNext(x)), Commit(x)).db;
               id in end.tasks && end.tasks[id].status == if Exhausted(db.tasks[id], now) then Dead else Pending
  {
    SelectedOne(db, x, id, now);
    var s := Do(State(db, map[]), SelectDue(x, now, [id]));
    assert id in Locks(s.open[x]) && id in Touches(Apply(id, token, r));
    var let := s.(db := Exec(s.db, Apply(id, token, r)));
    assert let.db.tasks[id] == ApplyRow(db.tasks[id], r);
    UpdatedOne(let, x, id, db.tasks[id], now);
  }

  // A scheduler that has selected one row.
  function HasSelected(id: TaskId, item: Task, now: Time): Txn {
    Scheduling(now, [id], map[id := item], 0, map[], map[])
  }

  lemma SelectedOne(db: DB, x: TxId, id: TaskId, now: Time)
    requires id in db.tasks && Due(db.tasks[id], now)
    ensures Enabled(State(db, map[]), SelectDue(x, now, [id]))
    ensures Do(State(db, map[]), SelectDue(x, now, [id])) == State(db, map[x := HasSelected(id, db.tasks[id], now)])
  {
    var t := Do(State(db, map[]), SelectDue(x, now, [id]));
    assert t.open[x].seen == map[id := db.tasks[id]];
    assert t.open[x] == HasSelected(id, db.tasks[id], now);
  }

  // It updates the row from what it has selected, whatever the row is by then.
  lemma UpdatedOne(s: State, x: TxId, id: TaskId, item: Task, now: Time)
    requires x in s.open && s.open[x] == HasSelected(id, item, now) && id in s.db.tasks
    ensures Enabled(s, UpdateNext(x)) && Enabled(Do(s, UpdateNext(x)), Commit(x))
    ensures var end := Do(Do(s, UpdateNext(x)), Commit(x)).db;
      id in end.tasks && end.tasks[id] == UpdateWith(s.db.tasks[id], item, now)
  {
    var turn := Turn(s.db, s.open[x]);
    assert turn.writes == map[id := UpdateWith(s.db.tasks[id], item, now)] && turn.done == |turn.rows|;
    var mid := Do(s, UpdateNext(x));
    assert mid.db == s.db && x in mid.open && mid.open[x] == turn;
    assert Do(mid, Commit(x)).db == Committed(s.db, turn);
    assert Committed(s.db, turn).tasks == s.db.tasks + turn.writes;
  }
}
