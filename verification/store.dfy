/** The PostgreSQL store (internal/store/postgres): the two tables as fields, each query or
    transaction as a method over them. What the database answers and where it fails are arguments. */
module Store {
  import opened Wrappers
  import opened Notification
  import opened Rows
  import opened Tables
  import opened Ordering
  import opened Selection

  datatype ClaimReply = ClaimFailed | NotAcquired | Acquired(task: Task)

  datatype UpdateReply = UpdateFailed | Affected(applied: bool)

  // An event as ClaimOutbox returns it, as far as the publisher uses it.
  datatype ClaimedEvent = ClaimedEvent(id: EventId, aggregate: TaskId)

  // `Existing` is the row a conflicting request met; `Vanished` that it was gone when read.
  datatype CreateReply = CreateFailed | Created | Existing(id: TaskId, request: Request) | Vanished

  class Database {
    var tasks: map<TaskId, Task>
    var events: map<EventId, Event>

    ghost function Db(): DB
      reads this
    {
      DB(tasks, events)
    }

    // The place of an event id in the order of the ids' texts.
    const text: EventId -> nat

    constructor (text: EventId -> nat)
      ensures Db() == DB(map[], map[]) && this.text == text
    {
      tasks, events, this.text := map[], map[], text;
    }

    // One turn of ScheduleDue's loop: an UPDATE guarded by the id alone, with values from the
    // candidate; then, unless the candidate is exhausted, the INSERT.
    method ScheduleCandidate(id: TaskId, item: Task, now: Time) returns (exhausted: bool)
      requires id in tasks && tasks[id] == item
      modifies this
      ensures Db() == ScheduleOne(old(Db()), id, now)
      ensures exhausted <==>
        item.attempts >= item.request.policy.maxAttempts || now >= item.request.createdAt + item.request.policy.lifetime
      ensures tasks == old(tasks)[id :=
        if exhausted
        then Task(item.request, Dead, item.attempts, item.generation, None, None, None,
                  item.lastHttpStatus, item.lastErrorCode, item.lastErrorMessage, now, item.deliveredAt, Some(now))
        else Task(item.request, Pending, item.attempts, item.generation + 1, None, None, None, item.lastHttpStatus,
                  if item.status == Delivering then "delivery_lease_expired" else "", item.lastErrorMessage,
                  now, item.deliveredAt, item.deadAt)]
      ensures
        if exhausted || exists e | e in old(events) ::
             old(events)[e].aggregate == id && old(events)[e].generation == item.generation + 1
        then events == old(events)
        else events == old(events)[Digest(id, item.generation + 1) :=
          Event(id, item.generation + 1, now, None, None, None, 0)]
    {
      exhausted := item.attempts >= item.request.policy.maxAttempts
        || !(now < item.request.createdAt + item.request.policy.lifetime);
      if exhausted {
        tasks := tasks[id := tasks[id].(status := Dead, deadAt := Some(now), updatedAt := now,
                                        leaseToken := None, leaseUntil := None, nextAttemptAt := None)];
        return;
      }
      var newGeneration := item.generation + 1;
      var errorCode := if item.status == Delivering then "delivery_lease_expired" else "";
      tasks := tasks[id := tasks[id].(status := Pending, generation := newGeneration, updatedAt := now,
                                      nextAttemptAt := None, leaseToken := None, leaseUntil := None,
                                      lastErrorCode := errorCode)];
      if !SlotTaken(events, id, newGeneration) {
        events := events[Digest(id, newGeneration) := NewEvent(id, newGeneration, now)];
      }
    }

    // `locked` are the rows other transactions have locked, `rows` is what the SELECT returns.
    // `failAt` is the candidate on which a statement fails, if any, and `commit` is what becomes
    // of the COMMIT.
    method ScheduleDue(now: Time, limit: nat, locked: set<TaskId>, failAt: Option<nat>, commit: Fault)
      returns (result: ScheduleResult, failed: bool, ghost rows: seq<TaskId>)
      modifies this
      ensures Selected(old(Db()), now, limit, locked, rows)
      ensures forall id | id in rows ::
        && id in old(tasks) && id !in locked
        && ((old(tasks)[id].nextAttemptAt.Some? && old(tasks)[id].nextAttemptAt.value <= now)
            || (old(tasks)[id].leaseUntil.Some? && old(tasks)[id].leaseUntil.value < now))
      ensures failed <==> (failAt.Some? && failAt.value < |rows|) || commit != Answered
      ensures Db() ==
        if (failAt.Some? && failAt.value < |rows|) || commit == Lost then old(Db())
        else ScheduleAll(old(Db()), rows, now)
      ensures !failed ==>
        && result.scheduled + result.dead == |rows|
        && result.dead == CountDead(old(Db()), rows, now)
        && result.recovered == CountRecovered(old(Db()), rows, now)
    {
      var savedTasks, savedEvents := tasks, events;
      ghost var before := Db();
      var ids, candidates := Candidates(now, limit, locked);
      rows := ids;
      SelectedAreDue(before, now, limit, locked, rows);
      DueByColumns(before, now, limit, locked, rows);
      result, failed := ScheduleCandidates(ids, candidates, now, failAt);
      if failed {
        tasks, events := savedTasks, savedEvents;
        return;
      }
      assert rows[..|rows|] == rows;
      if commit == Lost {
        tasks, events := savedTasks, savedEvents;
      }
      failed := commit != Answered;
      if failed {
        result := ScheduleResult(0, 0, 0);
      }
    }

    // ScheduleDue's loop, until a statement fails.
    method ScheduleCandidates(ids: seq<TaskId>, candidates: seq<Task>, now: Time, failAt: Option<nat>)
      returns (result: ScheduleResult, failed: bool)
      requires DueRows(Db(), ids, now) && |candidates| == |ids|
      requires forall k | 0 <= k < |ids| :: ids[k] in tasks && candidates[k] == tasks[ids[k]]
      modifies this
      ensures failed <==> failAt.Some? && failAt.value < |ids|
      ensures !failed ==> PassedTo(old(Db()), Db(), ids, now, |ids|, result)
    {
      ghost var before := Db();
      result := ScheduleResult(0, 0, 0);
      for i := 0 to |ids|
        invariant failAt.Some? ==> i <= failAt.value
        invariant PassedTo(before, Db(), ids, now, i, result)
      {
        if failAt == Some(i) {
          return result, true;
        }
        NextTurn(before, ids, now, i);
        ghost var mid, counted := Db(), result;
        var exhausted := ScheduleCandidate(ids[i], candidates[i], now);
        if exhausted {
          result := result.(dead := result.dead + 1);
        } else {
          if candidates[i].status == Delivering {
            result := result.(recovered := result.recovered + 1);
          }
          result := result.(scheduled := result.scheduled + 1);
        }
        PassTurn(before, mid, ids, now, i, counted, result);
      }
      return result, false;
    }

    // ScheduleDue's SELECT ... FOR UPDATE SKIP LOCKED, scanned into candidates.
    method Candidates(now: Time, limit: nat, locked: set<TaskId>) returns (ids: seq<TaskId>, candidates: seq<Task>)
      ensures Selected(Db(), now, limit, locked, ids) && |candidates| == |ids|
      ensures forall k | 0 <= k < |ids| ::
        && ids[k] !in locked
        && ((candidates[k].status == RetryWait && candidates[k].nextAttemptAt.Some?
             && candidates[k].nextAttemptAt.value <= now)
            || (candidates[k].status == Delivering && candidates[k].leaseUntil.Some?
                && candidates[k].leaseUntil.value < now))
      ensures |ids| == limit || forall id | id in tasks && id !in locked && id !in ids ::
        && (tasks[id].status == RetryWait && tasks[id].nextAttemptAt.Some? ==> tasks[id].nextAttemptAt.value > now)
        && (tasks[id].status == Delivering && tasks[id].leaseUntil.Some? ==> tasks[id].leaseUntil.value >= now)
      ensures forall k | 0 <= k < |ids| :: ids[k] in tasks && candidates[k] == tasks[ids[k]]
    {
      ids := Take(DueKeys(DB(tasks, events), now, locked), limit);
      DueByColumns(Db(), now, limit, locked, ids);
      candidates := [];
      for i := 0 to |ids|
        invariant |candidates| == i
        invariant forall k | 0 <= k < i :: ids[k] in tasks && candidates[k] == tasks[ids[k]]
      {
        assert ids[i] in ids;
        candidates := candidates + [tasks[ids[i]]];
      }
    }

    // ClaimDelivery: the single UPDATE ... WHERE id AND status = 'pending'.
    method ClaimDelivery(id: TaskId, leaseToken: Token, leaseUntil: Time, at: Time, fault: Fault)
      returns (reply: ClaimReply)
      modifies this
      ensures Db() ==
        if fault == Lost then old(Db()) else Tables.ClaimDelivery(old(Db()), id, leaseToken, leaseUntil, at)
      ensures fault != Answered <==> reply == ClaimFailed
      ensures reply == NotAcquired ==> id !in old(tasks) || old(tasks)[id].status != Pending
      ensures reply.Acquired? ==>
        && id in old(tasks) && old(tasks)[id].status == Pending && id in tasks && reply.task == tasks[id]
        && Owns(reply.task, leaseToken) && reply.task.attempts == old(tasks)[id].attempts + 1
        && reply.task.leaseUntil == Some(leaseUntil)
      ensures var changes := fault != Lost && id in old(tasks) && old(tasks)[id].status == Pending;
        if !changes then tasks == old(tasks)
        else
          var t := old(tasks)[id];
          tasks == old(tasks)[id := Task(
            t.request, Delivering, t.attempts + 1, t.generation, t.nextAttemptAt, Some(leaseToken), Some(leaseUntil),
            t.lastHttpStatus, t.lastErrorCode, t.lastErrorMessage, at, t.deliveredAt, t.deadAt)]
    {
      if fault == Lost {
        return ClaimFailed;
      }
      if id !in tasks || tasks[id].status != Pending {
        return if fault == Unseen then ClaimFailed else NotAcquired;
      }
      tasks := tasks[id := tasks[id].(status := Delivering, leaseToken := Some(leaseToken),
                                      leaseUntil := Some(leaseUntil), attempts := tasks[id].attempts + 1,
                                      updatedAt := at)];
      return if fault == Unseen then ClaimFailed else Acquired(tasks[id]);
    }

    // ApplyDeliveryResult: the update behind the compare-and-swap on status and lease token.
    method ApplyDeliveryResult(id: TaskId, leaseToken: Token, result: AttemptResult, fault: Fault)
      returns (reply: UpdateReply)
      modifies this
      ensures Db() == if fault == Lost then old(Db()) else ApplyResult(old(Db()), id, leaseToken, result)
      ensures fault != Answered <==> reply == UpdateFailed
      ensures reply.Affected? ==> (reply.applied <==>
        id in old(tasks) && old(tasks)[id].status == Delivering && old(tasks)[id].leaseToken == Some(leaseToken))
      ensures var changes := fault != Lost && id in old(tasks) && old(tasks)[id].status == Delivering
                             && old(tasks)[id].leaseToken == Some(leaseToken);
        if !changes then tasks == old(tasks)
        else
          var t := old(tasks)[id];
          tasks == old(tasks)[id := match result.outcome
            case Succeeded => Task(
              t.request, Delivered, t.attempts, t.generation, None, None, None, result.httpStatus, result.errorCode,
              result.errorMessage, result.completedAt, Some(result.completedAt), None)
            case Retryable => Task(
              t.request, RetryWait, t.attempts, t.generation, result.nextAttemptAt, None, None, result.httpStatus,
              result.errorCode, result.errorMessage, result.completedAt, None, None)
            case Permanent => Task(
              t.request, Dead, t.attempts, t.generation, None, None, None, result.httpStatus, result.errorCode,
              result.errorMessage, result.completedAt, None, Some(result.completedAt))]
    {
      if fault == Lost {
        return UpdateFailed;
      }
      var status := Dead;
      var next: Option<Time>, deliveredAt: Option<Time>, deadAt: Option<Time> := None, None, None;
      match result.outcome {
        case Succeeded =>
          status := Delivered;
          deliveredAt := Some(result.completedAt);
        case Retryable =>
          status := RetryWait;
          next := result.nextAttemptAt;
        case Permanent =>
          deadAt := Some(result.completedAt);
      }
      var applied := id in tasks && tasks[id].status == Delivering && tasks[id].leaseToken == Some(leaseToken);
      if applied {
        tasks := tasks[id := tasks[id].(
          status := status, nextAttemptAt := next, leaseToken := None, leaseUntil := None,
          lastHttpStatus := result.httpStatus, lastErrorCode := result.errorCode,
          lastErrorMessage := result.errorMessage, updatedAt := result.completedAt,
          deliveredAt := deliveredAt, deadAt := deadAt)];
      }
      return if fault == Unseen then UpdateFailed else Affected(applied);
    }

    // ClaimOutbox: the UPDATE of the rows its SELECT picks. RETURNING yields them in an order of
    // its own, by `place`; `chosen` are the rows in the SELECT's order. `None` is an error.
    method ClaimOutbox(now: Time, limit: nat, token: Token, until: Time, locked: set<EventId>,
                       place: EventId -> nat, fault: Fault)
      returns (claimed: Option<seq<ClaimedEvent>>, ghost chosen: seq<EventId>, ghost rows: seq<EventId>)
      requires Texts(text)
      modifies this
      ensures TopOf(ClaimKeys(old(Db()), now, locked, text), limit, chosen)
      ensures Reordered(chosen, rows) && ClaimableRows(old(Db()), rows, now)
      ensures Db() == if fault == Lost then old(Db()) else Tables.ClaimOutbox(old(Db()), rows, token, until)
      ensures fault != Answered <==> claimed.None?
      ensures claimed.Some? ==> |claimed.value| == |rows| <= limit
      ensures claimed.Some? ==> forall i | 0 <= i < |rows| ::
        (rows[i] in old(events) && claimed.value[i] == ClaimedEvent(rows[i], old(events)[rows[i]].aggregate))
      ensures forall e | e in rows ::
        && e in old(events) && e !in locked && old(events)[e].publishedAt.None?
        && (old(events)[e].claimUntil.None? || old(events)[e].claimUntil.value < now)
      ensures |rows| == limit || forall e | e in old(events) && e !in locked && e !in rows ::
        old(events)[e].publishedAt.Some? || (old(events)[e].claimUntil.Some? && old(events)[e].claimUntil.value >= now)
      ensures tasks == old(tasks) && (fault == Lost ==> events == old(events)) && events.Keys == old(events).Keys
      ensures fault != Lost ==> forall e | e in events ::
        var was := old(events)[e];
        events[e] == if e !in rows then was
                     else Event(was.aggregate, was.generation, was.createdAt, None, Some(token), Some(until),
                                was.publishAttempts + 1)
    {
      var picked := Take(ClaimKeys(DB(tasks, events), now, locked, text), limit);
      var returned := Shuffled(picked, place, text);
      chosen, rows := picked, returned;
      ReorderedClaimable(Db(), now, limit, locked, text, chosen, rows);
      ClaimableByColumns(Db(), now, limit, locked, text, chosen);
      if fault == Lost {
        return None, chosen, rows;
      }
      events := map e | e in events :: if e in returned then ClaimEvent(events[e], token, until) else events[e];
      if fault == Unseen {
        return None, chosen, rows;
      }
      var result: seq<ClaimedEvent> := [];
      for i := 0 to |returned|
        invariant |result| == i
        invariant forall k | 0 <= k < i :: result[k] == ClaimedEvent(rows[k], old(events)[rows[k]].aggregate)
      {
        assert returned[i] in returned;
        result := result + [ClaimedEvent(returned[i], events[returned[i]].aggregate)];
      }
      return Some(result), chosen, rows;
    }

    method MarkPublished(event: EventId, token: Token, at: Time, fault: Fault) returns (reply: UpdateReply)
      modifies this
      ensures Db() == if fault == Lost then old(Db()) else Tables.MarkPublished(old(Db()), event, token, at)
      ensures fault != Answered <==> reply == UpdateFailed
      ensures reply.Affected? ==> (reply.applied <==>
        event in old(events) && old(events)[event].claimToken == Some(token) && old(events)[event].publishedAt.None?)
      ensures var changes := fault != Lost && event in old(events) && old(events)[event].claimToken == Some(token)
                             && old(events)[event].publishedAt.None?;
        if !changes then events == old(events)
        else
          var was := old(events)[event];
          events == old(events)[event :=
            Event(was.aggregate, was.generation, was.createdAt, Some(at), None, None, was.publishAttempts)]
    {
      if fault == Lost {
        return UpdateFailed;
      }
      var applied := event in events && events[event].claimToken == Some(token) && events[event].publishedAt.None?;
      if applied {
        events := events[event := events[event].(publishedAt := Some(at), claimToken := None, claimUntil := None)];
      }
      return if fault == Unseen then UpdateFailed else Affected(applied);
    }

    // ReplayDeadAtomic: the UPDATE and the INSERT in one transaction. `updateFails` is an error
    // before the row is known: of the BEGIN or of the UPDATE.
    method ReplayDeadAtomic(id: TaskId, now: Time, event: EventId, updateFails: bool, insertFails: bool, commit: Fault)
      returns (reply: UpdateReply)
      modifies this
      ensures var dead := id in old(tasks) && old(tasks)[id].status == Dead;
        && (Db() == if updateFails || (dead && (insertFails || commit == Lost)) then old(Db())
                    else ReplayDead(old(Db()), id, now, event))
        && (reply == if updateFails then UpdateFailed
                     else if !dead then Affected(false)
                     else if insertFails || commit != Answered then UpdateFailed else Affected(true))
      ensures reply == Affected(true) ==>
        && id in old(tasks) && old(tasks)[id].status == Dead
        && var t := old(tasks)[id];
           && tasks == old(tasks)[id :=
                Task(t.request, Pending, t.attempts, t.generation + 1, None, None, None, t.lastHttpStatus,
                     t.lastErrorCode, t.lastErrorMessage, now, t.deliveredAt, None)]
           && events == old(events)[event := Event(id, t.generation + 1, now, None, None, None, 0)]
    {
      if updateFails {
        return UpdateFailed;
      }
      var savedTasks, savedEvents := tasks, events;
      if id !in tasks || tasks[id].status != Dead {
        return Affected(false);
      }
      var generation := tasks[id].generation + 1;
      tasks := tasks[id := tasks[id].(status := Pending, generation := generation, nextAttemptAt := None,
                                      leaseToken := None, leaseUntil := None, deadAt := None, updatedAt := now)];
      if insertFails {
        tasks, events := savedTasks, savedEvents;
        return UpdateFailed;
      }
      events := events[event := NewEvent(id, generation, now)];
      if commit == Lost {
        tasks, events := savedTasks, savedEvents;
      }
      return if commit != Answered then UpdateFailed else Affected(true);
    }

    // The transaction of CreateOrGet, run by WithTx: both rows or none.
    method InsertTaskAndEvent(id: TaskId, request: Request, event: EventId, insertFails: bool, commit: Fault)
      returns (failed: bool, conflict: bool)
      requires id !in tasks
      modifies this
      ensures conflict <==> KeyTaken(old(Db()), request)
      ensures failed <==> !conflict && (insertFails || commit != Answered)
      ensures Db() ==
        if failed && (insertFails || commit == Lost) then old(Db()) else Create(old(Db()), id, request, event)
      ensures conflict <==> exists other | other in old(tasks) ::
        old(tasks)[other].request.caller == request.caller && old(tasks)[other].request.key == request.key
      ensures !conflict && !failed ==>
        && tasks == old(tasks)[id :=
             Task(request, Pending, 0, 0, None, None, None, 0, "", "", request.createdAt, None, None)]
        && events == old(events)[event := Event(id, 0, request.createdAt, None, None, None, 0)]
    {
      var savedTasks, savedEvents := tasks, events;
      if exists other | other in tasks :: tasks[other].request.SameKey(request) {
        return false, true;
      }
      tasks := tasks[id := NewTask(request)];
      if insertFails {
        tasks, events := savedTasks, savedEvents;
        return true, false;
      }
      events := events[event := NewEvent(id, 0, request.createdAt)];
      if commit == Lost {
        tasks, events := savedTasks, savedEvents;
      }
      return commit != Answered, false;
    }

    method GetByCallerAndKey(caller: string, key: string) returns (found: Option<TaskId>)
      ensures found.Some? ==>
        found.value in tasks && tasks[found.value].request.caller == caller && tasks[found.value].request.key == key
      ensures found.None? ==>
        forall id | id in tasks :: tasks[id].request.caller != caller || tasks[id].request.key != key
    {
      if id :| id in tasks && tasks[id].request.caller == caller && tasks[id].request.key == key {
        return Some(id);
      }
      return None;
    }

    // DeleteTerminalBefore, with the cascade to the events of the rows its SELECT picks.
    method DeleteTerminalBefore(cutoff: Time, limit: nat, locked: set<TaskId>, fault: Fault)
      returns (count: Option<nat>, ghost rows: seq<TaskId>)
      modifies this
      ensures TopOf(TerminalKeys(old(Db()), cutoff, locked), limit, rows)
      ensures Db() == if fault == Lost then old(Db()) else Delete(old(Db()), Ids(rows))
      ensures count == if fault == Answered then Some(|rows|) else None
      ensures fault != Lost ==> |tasks| == |old(tasks)| - |rows|
      ensures forall id | id in old(tasks) && id !in tasks ::
        && id in rows && id !in locked && (old(tasks)[id].status == Delivered || old(tasks)[id].status == Dead)
        && old(tasks)[id].updatedAt < cutoff
        && forall e | e in old(events) && old(events)[e].aggregate == id :: old(events)[e].publishedAt.Some?
      ensures fault != Lost && |rows| < limit ==> forall id | id in tasks && id !in locked ::
        || (tasks[id].status != Delivered && tasks[id].status != Dead) || tasks[id].updatedAt >= cutoff
        || exists e | e in old(events) :: old(events)[e].aggregate == id && old(events)[e].publishedAt.None?
      ensures forall id | id in tasks :: id in old(tasks) && tasks[id] == old(tasks)[id]
      ensures forall e | e in old(events) && old(events)[e].aggregate in tasks ::
        e in events && events[e] == old(events)[e]
      ensures forall e | e in events :: e in old(events) && (fault != Lost ==> events[e].aggregate !in rows)
    {
      var picked := Take(TerminalKeys(DB(tasks, events), cutoff, locked), limit);
      rows := picked;
      DeletedRows(Db(), cutoff, limit, locked, rows);
      if fault == Lost {
        return None, rows;
      }
      DeletedSize(Db(), cutoff, limit, locked, rows);
      Cascade(Ids(picked));
      return if fault == Unseen then None else Some(|picked|), rows;
    }

    // DELETE ... with ON DELETE CASCADE.
    method Cascade(doomed: set<TaskId>)
      modifies this
      ensures Db() == Delete(old(Db()), doomed) && tasks.Keys == old(tasks).Keys - doomed
      ensures forall id | id in tasks :: tasks[id] == old(tasks)[id]
      ensures forall e | e in old(events) && old(events)[e].aggregate !in doomed ::
        e in events && events[e] == old(events)[e]
      ensures forall e | e in events :: e in old(events) && events[e].aggregate !in doomed
    {
      tasks := map id | id in tasks && id !in doomed :: tasks[id];
      events := map e | e in events && events[e].aggregate !in doomed :: events[e];
    }
  }

  // What goes, and what stays.
  lemma DeletedRows(db: DB, cutoff: Time, limit: nat, locked: set<TaskId>, rows: seq<TaskId>)
    requires TopOf(TerminalKeys(db, cutoff, locked), limit, rows)
    ensures forall id | id in rows ::
      && id in db.tasks && id !in locked && (db.tasks[id].status == Delivered || db.tasks[id].status == Dead)
      && db.tasks[id].updatedAt < cutoff
      && forall e | e in db.events && db.events[e].aggregate == id :: db.events[e].publishedAt.Some?
    ensures |rows| < limit ==> forall id | id in db.tasks && id !in rows && id !in locked ::
      || (db.tasks[id].status != Delivered && db.tasks[id].status != Dead) || db.tasks[id].updatedAt >= cutoff
      || exists e | e in db.events :: db.events[e].aggregate == id && db.events[e].publishedAt.None?
  {
    DeletableByColumns(db, cutoff, limit, locked, rows);
  }

  lemma DeletedSize(db: DB, cutoff: Time, limit: nat, locked: set<TaskId>, rows: seq<TaskId>)
    requires TopOf(TerminalKeys(db, cutoff, locked), limit, rows)
    ensures |Delete(db, Ids(rows)).tasks| == |db.tasks| - |rows|
  {
    TopIsDistinct(TerminalKeys(db, cutoff, locked), limit, rows);
    DistinctSize(rows);
    RemovedSize(db.tasks, Ids(rows));
    assert Delete(db, Ids(rows)).tasks.Keys == db.tasks.Keys - Ids(rows);
  }

  function Ids<T(==)>(rows: seq<T>): set<T> {
    set id | id in rows
  }

  // The same rows in another order.
  ghost predicate Reordered<T(!new)>(a: seq<T>, b: seq<T>) {
    |a| == |b| && Distinct(b) && forall x :: x in a <==> x in b
  }

  // Any order at all, depending on `place`.
  method Shuffled(rows: seq<EventId>, place: EventId -> nat, text: EventId -> nat) returns (result: seq<EventId>)
    requires Distinct(rows) && Texts(text)
    ensures Reordered(rows, result)
  {
    var keys := map e | e in rows :: (place(e), text(e));
    result := Take(keys, |rows|);
    TopIsDistinct(keys, |rows|, result);
    DistinctSize(rows);
    DistinctSize(result);
    if Ids(result) != Ids(rows) {
      SmallerSize(Ids(result), Ids(rows));
    }
  }

  lemma SmallerSize<T>(a: set<T>, b: set<T>)
    requires a <= b && a != b
    ensures |a| < |b|
  {
    assert b == a + (b - a) && |a + (b - a)| == |a| + |b - a|;
  }

  lemma {:induction false} DistinctSize<T>(rows: seq<T>)
    requires Distinct(rows)
    ensures |Ids(rows)| == |rows|
  {
    if rows == [] {
      assert Ids(rows) == {};
    } else {
      var init, last := rows[..|rows| - 1], rows[|rows| - 1];
      DistinctSize(init);
      assert rows == init + [last] && last !in init;
      assert Ids(rows) == Ids(init) + {last};
    }
  }

  lemma ReorderedClaimable(db: DB, now: Time, limit: nat, locked: set<EventId>, text: EventId -> nat,
                           chosen: seq<EventId>, rows: seq<EventId>)
    requires TopOf(ClaimKeys(db, now, locked, text), limit, chosen) && Reordered(chosen, rows)
    ensures ClaimableRows(db, rows, now)
  {
    forall e | e in rows ensures e in db.events && Claimable(db.events[e], now) {
      assert e in chosen;
    }
  }

  lemma RemovedSize(tasks: map<TaskId, Task>, doomed: set<TaskId>)
    requires doomed <= tasks.Keys
    ensures |tasks.Keys - doomed| == |tasks| - |doomed|
  {
    assert tasks.Keys == (tasks.Keys - doomed) + doomed;
    assert |(tasks.Keys - doomed) + doomed| == |tasks.Keys - doomed| + |doomed|;
  }

  // The pass has worked on the first i candidates.
  ghost predicate PassedTo(before: DB, db: DB, rows: seq<TaskId>, now: Time, i: nat, result: ScheduleResult) {
    && i <= |rows| && db == ScheduleAll(before, rows[..i], now)
    && result.scheduled + result.dead == i
    && result.dead == CountDead(before, rows[..i], now)
    && result.recovered == CountRecovered(before, rows[..i], now)
  }

  lemma PassTurn(before: DB, db: DB, rows: seq<TaskId>, now: Time, i: nat, result: ScheduleResult, next: ScheduleResult)
    requires PassedTo(before, db, rows, now, i, result) && i < |rows| && rows[i] in before.tasks
    requires var item := before.tasks[rows[i]];
      next == if Exhausted(item, now) then result.(dead := result.dead + 1)
              else result.(scheduled := result.scheduled + 1,
                           recovered := result.recovered + if item.status == Delivering then 1 else 0)
    ensures PassedTo(before, ScheduleOne(db, rows[i], now), rows, now, i + 1, next)
  {
    assert rows[..i + 1][..i] == rows[..i];
  }

  // The row of the next candidate is still the one the SELECT read.
  lemma NextTurn(db: DB, rows: seq<TaskId>, now: Time, i: nat)
    requires i < |rows| && DueRows(db, rows, now)
    ensures rows[i] in ScheduleAll(db, rows[..i], now).tasks
    ensures rows[i] in db.tasks && ScheduleAll(db, rows[..i], now).tasks[rows[i]] == db.tasks[rows[i]]
  {
    assert rows[i] in rows && rows[i] !in rows[..i];
    ScheduleAllRows(db, rows[..i], now);
  }
}
