/** The answers of the three SELECT ... ORDER BY ... FOR UPDATE SKIP LOCKED LIMIT queries, and what
    a pass of the scheduler over its answer counts. */
module Selection {
  import opened Wrappers
  import opened Notification
  import opened Rows
  import opened Tables
  import opened Ordering

  // COALESCE(next_attempt_at, lease_until).
  function DueKey(t: Task): Time {
    if t.nextAttemptAt.Some? then t.nextAttemptAt.value
    else if t.leaseUntil.Some? then t.leaseUntil.value else 0
  }

  // ScheduleDue: the due rows that no other transaction has locked.
  function DueKeys(db: DB, now: Time, locked: set<TaskId>): map<TaskId, Key> {
    map id | id in db.tasks && Due(db.tasks[id], now) && id !in locked :: (DueKey(db.tasks[id]), id)
  }

  // ClaimOutbox: the claimable rows. An event id's place in text order is given by `text`.
  function ClaimKeys(db: DB, now: Time, locked: set<EventId>, text: EventId -> nat): map<EventId, Key> {
    map e | e in db.events && Claimable(db.events[e], now) && e !in locked :: (db.events[e].createdAt, text(e))
  }

  // DeleteTerminalBefore: the deletable rows.
  function TerminalKeys(db: DB, cutoff: Time, locked: set<TaskId>): map<TaskId, Key> {
    map id | id in db.tasks && Deletable(db, id, cutoff) && id !in locked :: (db.tasks[id].updatedAt, id)
  }

  // Different ids have different texts.
  ghost predicate Texts(text: EventId -> nat) {
    forall e, f | e != f :: text(e) != text(f)
  }

  ghost predicate Selected(db: DB, now: Time, limit: nat, locked: set<TaskId>, rows: seq<TaskId>) {
    TopOf(DueKeys(db, now, locked), limit, rows)
  }

  lemma SelectedAreDue(db: DB, now: Time, limit: nat, locked: set<TaskId>, rows: seq<TaskId>)
    requires Selected(db, now, limit, locked, rows)
    ensures DueRows(db, rows, now)
  {
    TopIsDistinct(DueKeys(db, now, locked), limit, rows);
  }

  // ---------- the three SELECTs on their columns ----------

  // The scheduler picks, oldest due moment first and then by id, up to its limit, exactly the
  // unlocked rows whose retry time has come or whose lease has run out.
  lemma DueByColumns(db: DB, now: Time, limit: nat, locked: set<TaskId>, rows: seq<TaskId>)
    ensures Selected(db, now, limit, locked, rows) <==>
      && |rows| <= limit
      && (forall id | id in rows :: id in db.tasks && id !in locked
            && ((db.tasks[id].status == RetryWait && db.tasks[id].nextAttemptAt.Some?
                 && db.tasks[id].nextAttemptAt.value <= now)
                || (db.tasks[id].status == Delivering && db.tasks[id].leaseUntil.Some?
                    && db.tasks[id].leaseUntil.value < now)))
      && (forall i, j | 0 <= i < j < |rows| :: DueBefore(db.tasks, rows[i], rows[j]))
      && (forall id | id in db.tasks && id !in locked && id !in rows
            && ((db.tasks[id].status == RetryWait && db.tasks[id].nextAttemptAt.Some?
                 && db.tasks[id].nextAttemptAt.value <= now)
                || (db.tasks[id].status == Delivering && db.tasks[id].leaseUntil.Some?
                    && db.tasks[id].leaseUntil.value < now)) ::
            |rows| == limit && forall r | r in rows :: DueBefore(db.tasks, r, id))
  {
    var keys := DueKeys(db, now, locked);
    forall a, b | a in keys && b in keys ensures Before(keys[a], keys[b]) <==> DueBefore(db.tasks, a, b) {}
  }

  // By COALESCE(next_attempt_at, lease_until), and then by id.
  ghost predicate DueBefore(tasks: map<TaskId, Task>, a: TaskId, b: TaskId) {
    && a in tasks && b in tasks
    && exists x, y ::
         && Some(x) == (if tasks[a].nextAttemptAt.Some? then tasks[a].nextAttemptAt else tasks[a].leaseUntil)
         && Some(y) == (if tasks[b].nextAttemptAt.Some? then tasks[b].nextAttemptAt else tasks[b].leaseUntil)
         && (x < y || (x == y && a < b))
  }

  // The publisher picks, oldest first and then by the id's text, up to its limit, exactly the
  // unlocked rows that are unpublished and unclaimed or whose claim has run out.
  lemma ClaimableByColumns(db: DB, now: Time, limit: nat, locked: set<EventId>, text: EventId -> nat,
                           rows: seq<EventId>)
    ensures TopOf(ClaimKeys(db, now, locked, text), limit, rows) <==>
      && |rows| <= limit
      && (forall e | e in rows :: e in db.events && e !in locked && db.events[e].publishedAt.None?
            && (db.events[e].claimUntil.None? || db.events[e].claimUntil.value < now))
      && (forall i, j | 0 <= i < j < |rows| :: OlderEvent(db.events, text, rows[i], rows[j]))
      && (forall e | e in db.events && e !in locked && e !in rows && db.events[e].publishedAt.None?
            && (db.events[e].claimUntil.None? || db.events[e].claimUntil.value < now) ::
            |rows| == limit && forall r | r in rows :: OlderEvent(db.events, text, r, e))
  {
    var keys := ClaimKeys(db, now, locked, text);
    forall a, b | a in keys && b in keys ensures Before(keys[a], keys[b]) <==> OlderEvent(db.events, text, a, b) {}
  }

  ghost predicate OlderEvent(events: map<EventId, Event>, text: EventId -> nat, a: EventId, b: EventId) {
    && a in events && b in events
    && (events[a].createdAt < events[b].createdAt
        || (events[a].createdAt == events[b].createdAt && text(a) < text(b)))
  }

  // Retention picks, longest untouched first and then by id, up to its limit, exactly the unlocked
  // tasks that are delivered or dead, were last touched before the cutoff, and have no unpublished
  // event.
  lemma DeletableByColumns(db: DB, cutoff: Time, limit: nat, locked: set<TaskId>, rows: seq<TaskId>)
    ensures TopOf(TerminalKeys(db, cutoff, locked), limit, rows) <==>
      && |rows| <= limit
      && (forall id | id in rows :: id in db.tasks && id !in locked
            && (db.tasks[id].status == Delivered || db.tasks[id].status == Dead)
            && db.tasks[id].updatedAt < cutoff
            && forall e | e in db.events && db.events[e].publishedAt.None? :: db.events[e].aggregate != id)
      && (forall i, j | 0 <= i < j < |rows| :: OlderTask(db.tasks, rows[i], rows[j]))
      && (forall id | id in db.tasks && id !in locked && id !in rows
            && (db.tasks[id].status == Delivered || db.tasks[id].status == Dead)
            && db.tasks[id].updatedAt < cutoff
            && (forall e | e in db.events && db.events[e].publishedAt.None? :: db.events[e].aggregate != id) ::
            |rows| == limit && forall r | r in rows :: OlderTask(db.tasks, r, id))
  {
    var keys := TerminalKeys(db, cutoff, locked);
    forall a, b | a in keys && b in keys ensures Before(keys[a], keys[b]) <==> OlderTask(db.tasks, a, b) {}
  }

  ghost predicate OlderTask(tasks: map<TaskId, Task>, a: TaskId, b: TaskId) {
    && a in tasks && b in tasks
    && (tasks[a].updatedAt < tasks[b].updatedAt || (tasks[a].updatedAt == tasks[b].updatedAt && a < b))
  }

  // The rows and events after a pass over `rows`: a candidate that is out of attempts or of time is
  // dead, every other one is pending in its next generation, which has its event, and nothing else
  // changes.
  lemma PassByColumns(db: DB, rows: seq<TaskId>, now: Time)
    requires Distinct(rows) && DigestsName(db.events) && forall id | id in rows :: id in db.tasks
    ensures var after := ScheduleAll(db, rows, now);
      && after.tasks.Keys == db.tasks.Keys
      && (forall id | id in db.tasks && id !in rows :: after.tasks[id] == db.tasks[id])
      && (forall id | id in db.tasks && id in rows :: var t := db.tasks[id];
            after.tasks[id] ==
              if t.attempts >= t.request.policy.maxAttempts || now >= t.request.createdAt + t.request.policy.lifetime
              then Task(t.request, Dead, t.attempts, t.generation, None, None, None, t.lastHttpStatus, t.lastErrorCode,
                        t.lastErrorMessage, now, t.deliveredAt, Some(now))
              else Task(t.request, Pending, t.attempts, t.generation + 1, None, None, None, t.lastHttpStatus,
                        if t.status == Delivering then "delivery_lease_expired" else "", t.lastErrorMessage,
                        now, t.deliveredAt, t.deadAt))
      && (forall e | e in db.events :: e in after.events && after.events[e] == db.events[e])
      && (forall id | id in rows && after.tasks[id].status == Pending ::
            exists e | e in after.events ::
              after.events[e].aggregate == id && after.events[e].generation == after.tasks[id].generation)
      && (forall e | e in after.events && e !in db.events ::
            var id := after.events[e].aggregate;
            && id in rows && id in after.tasks && after.tasks[id].status == Pending
            && after.events[e] == Event(id, after.tasks[id].generation, now, None, None, None, 0))
  {
    ScheduleAllRows(db, rows, now);
    ScheduleAllEvents(db, rows, now);
    var after := ScheduleAll(db, rows, now);
    forall id | id in rows && after.tasks[id].status == Pending
      ensures exists e | e in after.events ::
        after.events[e].aggregate == id && after.events[e].generation == after.tasks[id].generation
    {
      var e := Digest(id, db.tasks[id].generation + 1);
      if SlotTaken(db.events, id, e.generation) {
        var had :| had in db.events && db.events[had].aggregate == id && db.events[had].generation == e.generation;
        assert had in after.events;
      } else {
        assert NewlyScheduled(db, rows, now, e);
        assert e !in db.events;
      }
    }
  }

  // ---------- what the counters count ----------

  datatype ScheduleResult = ScheduleResult(scheduled: nat, dead: nat, recovered: nat)

  function CountDead(db: DB, rows: seq<TaskId>, now: Time): nat {
    if rows == [] then 0
    else
      var id := rows[|rows| - 1];
      CountDead(db, rows[..|rows| - 1], now) + if id in db.tasks && Exhausted(db.tasks[id], now) then 1 else 0
  }

  function CountRecovered(db: DB, rows: seq<TaskId>, now: Time): nat {
    if rows == [] then 0
    else
      var id := rows[|rows| - 1];
      CountRecovered(db, rows[..|rows| - 1], now)
      + if id in db.tasks && !Exhausted(db.tasks[id], now) && db.tasks[id].status == Delivering then 1 else 0
  }

  function Killed(db: DB, rows: seq<TaskId>, now: Time): set<TaskId> {
    set id | id in rows && id in db.tasks && Exhausted(db.tasks[id], now)
  }

  function Rescued(db: DB, rows: seq<TaskId>, now: Time): set<TaskId> {
    set id | id in rows && id in db.tasks && !Exhausted(db.tasks[id], now) && db.tasks[id].status == Delivering
  }

  lemma {:induction false} KilledSize(db: DB, rows: seq<TaskId>, now: Time)
    requires Distinct(rows)
    ensures CountDead(db, rows, now) == |Killed(db, rows, now)|
  {
    if rows == [] {
    } else {
      var init, id := rows[..|rows| - 1], rows[|rows| - 1];
      assert rows == init + [id];
      KilledSize(db, init, now);
      assert id !in Killed(db, init, now);
      if id in db.tasks && Exhausted(db.tasks[id], now) {
        assert Killed(db, rows, now) == Killed(db, init, now) + {id};
      } else {
        assert Killed(db, rows, now) == Killed(db, init, now);
      }
    }
  }

  lemma {:induction false} RescuedSize(db: DB, rows: seq<TaskId>, now: Time)
    requires Distinct(rows)
    ensures CountRecovered(db, rows, now) == |Rescued(db, rows, now)|
  {
    if rows == [] {
    } else {
      var init, id := rows[..|rows| - 1], rows[|rows| - 1];
      assert rows == init + [id];
      RescuedSize(db, init, now);
      assert id !in Rescued(db, init, now);
      if id in db.tasks && !Exhausted(db.tasks[id], now) && db.tasks[id].status == Delivering {
        assert Rescued(db, rows, now) == Rescued(db, init, now) + {id};
      } else {
        assert Rescued(db, rows, now) == Rescued(db, init, now);
      }
    }
  }

  function Moved(rows: seq<TaskId>, before: map<TaskId, Task>, after: map<TaskId, Task>, from: set<Status>, to: Status)
    : set<TaskId>
  {
    set id | id in rows && id in before && id in after && before[id].status in from && after[id].status == to
  }

  // The counters are the numbers of candidates that ended dead, and of expired leases that went
  // back to pending.
  lemma CountersCount(db: DB, rows: seq<TaskId>, now: Time)
    requires DueRows(db, rows, now)
    ensures var after := ScheduleAll(db, rows, now).tasks;
            && CountDead(db, rows, now) == |Moved(rows, db.tasks, after, {RetryWait, Delivering}, Dead)|
            && CountRecovered(db, rows, now) == |Moved(rows, db.tasks, after, {Delivering}, Pending)|
  {
    ScheduleAllRows(db, rows, now);
    KilledSize(db, rows, now);
    RescuedSize(db, rows, now);
    var after := ScheduleAll(db, rows, now).tasks;
    assert Moved(rows, db.tasks, after, {RetryWait, Delivering}, Dead) == Killed(db, rows, now);
    assert Moved(rows, db.tasks, after, {Delivering}, Pending) == Rescued(db, rows, now);
  }

  // A pass that was not cut short by its limit leaves nothing due at its own moment: an immediate
  // second pass selects no row.
  lemma SecondPassIsEmpty(db: DB, now: Time, limit: nat, rows: seq<TaskId>, again: nat, second: seq<TaskId>)
    requires Selected(db, now, limit, {}, rows) && |rows| < limit
    requires Selected(ScheduleAll(db, rows, now), now, again, {}, second)
    ensures second == []
  {
    SelectedAreDue(db, now, limit, {}, rows);
    ScheduleAllRows(db, rows, now);
    var after := ScheduleAll(db, rows, now);
    forall id | id in after.tasks ensures !Due(after.tasks[id], now) {
      assert id !in rows ==> id !in DueKeys(db, now, {});
    }
    FirstIn(second);
  }

  lemma FirstIn<T>(rows: seq<T>)
    ensures rows == [] || rows[0] in rows
  {}
}
