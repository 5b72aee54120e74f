/** The inductive invariant of the delivery protocol, clause by clause, and the proof that every
    step keeps it. */
module Invariant {
  import opened Wrappers
  import opened Notification
  import opened Rows
  import opened Tables
  import opened Ledgers
  import opened Protocol

  // At most one task per caller and idempotency key.
  ghost predicate KeysUnique(tasks: map<TaskId, Task>) {
    forall i, j | i in tasks && j in tasks && tasks[i].request.SameKey(tasks[j].request) :: i == j
  }

  ghost predicate TasksOk(tasks: map<TaskId, Task>, ledgers: map<TaskId, Ledger>, leases: set<Token>) {
    && (forall id | id in ledgers :: LedgerOk(ledgers[id]) && ledgers[id].granted <= leases)
    && (forall id | id in tasks :: id in ledgers && TaskOk(tasks[id], ledgers[id]))
  }

  // Every event ever born names its slot, once; and only slots of generations reached so far exist.
  ghost predicate BornOk(tasks: map<TaskId, Task>, ledgers: map<TaskId, Ledger>, born: map<EventId, Slot>,
                         slots: map<Slot, EventId>) {
    && (forall e | e in born ::
          && born[e].task in ledgers
          && born[e] in slots && slots[born[e]] == e
          && (born[e].task in tasks ==> born[e].generation <= tasks[born[e].task].generation)
          && (e.Digest? ==> born[e] == Slot(e.task, e.generation)))
    && (forall slot | slot in slots :: slots[slot] in born && born[slots[slot]] == slot)
  }

  ghost predicate EventOk(e: EventId, event: Event, born: map<EventId, Slot>, enqueued: set<EventId>) {
    && e in born && born[e] == Slot(event.aggregate, event.generation)
    && (event.publishedAt.Some? ==> e in enqueued && event.claimToken.None? && event.claimUntil.None?)
    && (event.claimToken.Some? <==> event.claimUntil.Some?)
  }

  // Every event has its task, and every live task has its event for every generation so far.
  ghost predicate EventsOk(db: DB, born: map<EventId, Slot>, slots: map<Slot, EventId>, enqueued: set<EventId>) {
    && (forall e | e in db.events :: EventOk(e, db.events[e], born, enqueued) && db.events[e].aggregate in db.tasks)
    && (forall slot: Slot | slot.task in db.tasks && slot.generation <= db.tasks[slot.task].generation ::
          slot in slots && slots[slot] in db.events)
  }

  ghost predicate MessageOk(m: Message, born: map<EventId, Slot>) {
    m.event in born && born[m.event].task == m.task
  }

  ghost predicate CopiesOk(copies: map<Tag, Copy>, workers: map<Token, Worker>, born: map<EventId, Slot>,
                           enqueued: set<EventId>) {
    forall tag | tag in copies ::
      && MessageOk(copies[tag].message, born)
      && copies[tag].message.event in enqueued
      && (copies[tag].holder.Some? ==>
            && copies[tag].holder.value in workers
            && workers[copies[tag].holder.value].tag == tag
            && workers[copies[tag].holder.value].message == copies[tag].message)
  }

  // The task is past generation g, or no longer pending in it: the generation-g message is spent.
  ghost predicate Settled(row: Option<Task>, g: nat) {
    row.Some? ==> row.value.generation > g || (row.value.generation == g && row.value.status != Pending)
  }

  // If the session still owns the row, the row is the one it was shown.
  ghost predicate Current(w: Token, snapshot: Task, row: Option<Task>) {
    row.Some? && row.value.leaseToken == Some(w) ==>
      row.value.attempts == snapshot.attempts && row.value.request == snapshot.request
  }

  ghost predicate WorkerOk(w: Token, progress: Progress, row: Option<Task>, l: Ledger, g: nat) {
    match progress
    case Received => w !in l.granted && w !in l.sent
    case Claimed(t) => w in l.granted && w !in l.sent && Current(w, t, row) && Settled(row, g)
    case Admitted(t) => w in l.granted && w !in l.sent && Current(w, t, row) && Settled(row, g)
    case Answer(t, r) =>
      && w in l.sent && Current(w, t, row) && Settled(row, g) && SenderMayReturn(r)
      && (r.outcome == Succeeded ==> w in l.succeeded)
    case Done(disposition) => disposition != Reject && (disposition == Ack ==> Settled(row, g))
  }

  ghost predicate WorkersOk(workers: map<Token, Worker>, tasks: map<TaskId, Task>, ledgers: map<TaskId, Ledger>,
                            born: map<EventId, Slot>, leases: set<Token>) {
    forall w | w in workers ::
      && w in leases
      && MessageOk(workers[w].message, born)
      && workers[w].message.task in ledgers
      && WorkerOk(w, workers[w].progress, Row(tasks, workers[w].message.task), ledgers[workers[w].message.task],
                  born[workers[w].message.event].generation)
  }

  ghost predicate PublishersOk(publishers: map<Token, Publisher>, claims: set<Token>, born: map<EventId, Slot>) {
    forall p | p in publishers ::
      && p in claims
      && publishers[p].next <= |publishers[p].batch|
      && (forall m | m in publishers[p].batch :: MessageOk(m, born))
      && (publishers[p].confirmed ==> publishers[p].next < |publishers[p].batch|)
  }

  // The session has a confirmed event whose mark would change the row.
  predicate AboutToMark(p: Token, session: Publisher, events: map<EventId, Event>) {
    && session.confirmed && session.next < |session.batch|
    && session.batch[session.next].event in events
    && MarkMatches(events[session.batch[session.next].event], p)
  }

  // Such an event has been with the broker.
  ghost predicate ConfirmsOk(publishers: map<Token, Publisher>, events: map<EventId, Event>, enqueued: set<EventId>) {
    forall p | p in publishers && AboutToMark(p, publishers[p], events) ::
      publishers[p].batch[publishers[p].next].event in enqueued
  }

  ghost predicate HasCopy(copies: map<Tag, Copy>, e: EventId) {
    exists tag :: tag in copies && copies[tag].message.event == e
  }

  // A task still pending in the generation of an enqueued event has a copy of it in the broker.
  ghost predicate Covered(tasks: map<TaskId, Task>, born: map<EventId, Slot>, enqueued: set<EventId>,
                          copies: map<Tag, Copy>) {
    && enqueued <= born.Keys
    && forall e | e in enqueued && !Settled(Row(tasks, born[e].task), born[e].generation) :: HasCopy(copies, e)
  }

  ghost predicate Inv(s: State) {
    && KeysUnique(s.db.tasks)
    && TasksOk(s.db.tasks, s.ledgers, s.leases)
    && BornOk(s.db.tasks, s.ledgers, s.born, s.slots)
    && EventsOk(s.db, s.born, s.slots, s.enqueued)
    && CopiesOk(s.copies, s.workers, s.born, s.enqueued)
    && WorkersOk(s.workers, s.db.tasks, s.ledgers, s.born, s.leases)
    && PublishersOk(s.publishers, s.claims, s.born)
    && ConfirmsOk(s.publishers, s.db.events, s.enqueued)
    && Covered(s.db.tasks, s.born, s.enqueued, s.copies)
  }

  lemma InitHolds()
    ensures Inv(Init())
  {}

  // ---------- what one task may do to the sessions that look at it ----------

  // From (row, l) to (row', l') a task moves on: it never returns to a pending generation, and
  // only the lease `actor` may newly appear in its row or in its history.
  ghost predicate MovesOn(row: Option<Task>, l: Ledger, row': Option<Task>, l': Ledger, actor: Option<Token>) {
    && l.granted <= l'.granted && l.sent <= l'.sent && l.succeeded <= l'.succeeded
    && (forall w | w in l'.granted && w !in l.granted :: actor == Some(w))
    && (forall w | w in l'.sent && w !in l.sent :: actor == Some(w))
    && (row.None? ==> row'.None?)
    && (row'.Some? ==>
          && row'.value.generation >= row.value.generation
          && (row'.value.generation == row.value.generation && row'.value.status == Pending ==>
                row.value.status == Pending)
          && (row'.value.leaseToken.Some? && actor != row'.value.leaseToken ==>
                && row.value.leaseToken == row'.value.leaseToken
                && row.value.attempts == row'.value.attempts
                && row.value.request == row'.value.request))
  }

  lemma WorkerStays(w: Token, progress: Progress, row: Option<Task>, l: Ledger, row': Option<Task>, l': Ledger,
                    g: nat, actor: Option<Token>)
    requires WorkerOk(w, progress, row, l, g) && MovesOn(row, l, row', l', actor) && actor != Some(w)
    ensures WorkerOk(w, progress, row', l', g)
  {}

  lemma SettledStays(row: Option<Task>, l: Ledger, row': Option<Task>, l': Ledger, g: nat, actor: Option<Token>)
    requires Settled(row, g) && MovesOn(row, l, row', l', actor)
    ensures Settled(row', g)
  {}

  // Task `id` may become row t' with history l', the change being due to lease `actor`.
  ghost predicate MayMove(tasks: map<TaskId, Task>, ledgers: map<TaskId, Ledger>, leases: set<Token>,
                          id: TaskId, t': Task, l': Ledger, actor: Option<Token>) {
    && id in tasks && id in ledgers
    && t'.request == tasks[id].request
    && MovesOn(Some(tasks[id]), ledgers[id], Some(t'), l', actor)
    && TaskOk(t', l')
    && (actor.Some? ==> actor.value in leases)
  }

  lemma KeysKept(tasks: map<TaskId, Task>, id: TaskId, t': Task)
    requires KeysUnique(tasks) && id in tasks && t'.request == tasks[id].request
    ensures KeysUnique(tasks[id := t'])
  {}

  lemma TasksKept(tasks: map<TaskId, Task>, ledgers: map<TaskId, Ledger>, leases: set<Token>,
                  id: TaskId, t': Task, l': Ledger)
    requires TasksOk(tasks, ledgers, leases) && id in ledgers
    requires TaskOk(t', l') && l'.granted <= leases
    ensures TasksOk(tasks[id := t'], ledgers[id := l'], leases)
  {
    var tasks', ledgers' := tasks[id := t'], ledgers[id := l'];
    forall i | i in tasks' ensures i in ledgers' && TaskOk(tasks'[i], ledgers'[i]) {
      TaskKept(tasks, ledgers, leases, id, t', l', tasks', ledgers', i);
    }
    LedgersKept(tasks, ledgers, leases, id, l', ledgers');
  }

  lemma TaskKept(tasks: map<TaskId, Task>, ledgers: map<TaskId, Ledger>, leases: set<Token>,
                 id: TaskId, t': Task, l': Ledger,
                 tasks': map<TaskId, Task>, ledgers': map<TaskId, Ledger>, i: TaskId)
    requires TasksOk(tasks, ledgers, leases) && id in ledgers && TaskOk(t', l')
    requires tasks' == tasks[id := t'] && ledgers' == ledgers[id := l'] && i in tasks'
    ensures i in ledgers' && TaskOk(tasks'[i], ledgers'[i])
  {
    if i != id {
      assert tasks'[i] == tasks[i];
    }
  }

  lemma LedgersKept(tasks: map<TaskId, Task>, ledgers: map<TaskId, Ledger>, leases: set<Token>, id: TaskId, l': Ledger,
                    ledgers': map<TaskId, Ledger>)
    requires TasksOk(tasks, ledgers, leases) && LedgerOk(l') && l'.granted <= leases && ledgers' == ledgers[id := l']
    ensures forall i | i in ledgers' :: LedgerOk(ledgers'[i]) && ledgers'[i].granted <= leases
  {}

  lemma LeasesKept(l: Ledger, row: Option<Task>, row': Option<Task>, l': Ledger, leases: set<Token>,
                   actor: Option<Token>)
    requires MovesOn(row, l, row', l', actor) && l.granted <= leases && (actor.Some? ==> actor.value in leases)
    ensures l'.granted <= leases
  {
    forall w | w in l'.granted ensures w in leases {
      assert w in l.granted || actor == Some(w);
    }
  }

  lemma BornKept(tasks: map<TaskId, Task>, ledgers: map<TaskId, Ledger>, leases: set<Token>,
                 born: map<EventId, Slot>, slots: map<Slot, EventId>,
                 id: TaskId, t': Task, l': Ledger, actor: Option<Token>)
    requires BornOk(tasks, ledgers, born, slots) && MayMove(tasks, ledgers, leases, id, t', l', actor)
    ensures BornOk(tasks[id := t'], ledgers[id := l'], born, slots)
  {}

  lemma CoveredKept(tasks: map<TaskId, Task>, ledgers: map<TaskId, Ledger>, leases: set<Token>,
                    born: map<EventId, Slot>, enqueued: set<EventId>, copies: map<Tag, Copy>,
                    id: TaskId, t': Task, l': Ledger, actor: Option<Token>)
    requires Covered(tasks, born, enqueued, copies) && MayMove(tasks, ledgers, leases, id, t', l', actor)
    ensures Covered(tasks[id := t'], born, enqueued, copies)
  {
    forall e | e in enqueued && !Settled(Row(tasks[id := t'], born[e].task), born[e].generation)
      ensures HasCopy(copies, e)
    {
      if born[e].task == id && Settled(Row(tasks, id), born[e].generation) {
        SettledStays(Some(tasks[id]), ledgers[id], Some(t'), l', born[e].generation, actor);
      }
    }
  }

  // All sessions but the acting one, which the step itself accounts for.
  lemma WorkersKept(workers: map<Token, Worker>, tasks: map<TaskId, Task>, ledgers: map<TaskId, Ledger>,
                    born: map<EventId, Slot>, leases: set<Token>,
                    id: TaskId, t': Task, l': Ledger, actor: Option<Token>)
    requires WorkersOk(workers, tasks, ledgers, born, leases)
    requires MayMove(tasks, ledgers, leases, id, t', l', actor)
    ensures WorkersOk(if actor.Some? then workers - {actor.value} else workers,
                      tasks[id := t'], ledgers[id := l'], born, leases)
  {
    forall w | w in workers && actor != Some(w)
      ensures workers[w].message.task in ledgers[id := l'] && MessageOk(workers[w].message, born)
      ensures WorkerOk(w, workers[w].progress, Row(tasks[id := t'], workers[w].message.task),
                       ledgers[id := l'][workers[w].message.task], born[workers[w].message.event].generation)
    {
      if workers[w].message.task == id {
        WorkerStays(w, workers[w].progress, Some(tasks[id]), ledgers[id], Some(t'), l',
                    born[workers[w].message.event].generation, actor);
      }
    }
  }

  lemma EventsKept(db: DB, born: map<EventId, Slot>, slots: map<Slot, EventId>, enqueued: set<EventId>,
                   id: TaskId, t': Task)
    requires EventsOk(db, born, slots, enqueued) && id in db.tasks && t'.generation == db.tasks[id].generation
    ensures EventsOk(db.(tasks := db.tasks[id := t']), born, slots, enqueued)
  {}

  // A session steps to a progress it may have, over unchanged rows.
  lemma AdvanceKeeps(s: State, w: Token, progress: Progress)
    requires Inv(s) && w in s.workers
    requires WorkerOk(w, progress, Row(s.db.tasks, s.workers[w].message.task), s.ledgers[s.workers[w].message.task],
                      s.born[s.workers[w].message.event].generation)
    ensures Inv(Advance(s, w, progress))
  {}

  // A session's task moves on within its generation, because of this session.
  lemma WorkerMoveKeeps(s: State, w: Token, t': Task, l': Ledger, progress: Progress)
    requires Inv(s) && w in s.workers
    requires MayMove(s.db.tasks, s.ledgers, s.leases, s.workers[w].message.task, t', l', Some(w))
    requires t'.generation == s.db.tasks[s.workers[w].message.task].generation
    requires WorkerOk(w, progress, Some(t'), l', s.born[s.workers[w].message.event].generation)
    ensures Inv(Advance(WithRow(s, s.workers[w].message.task, t', l'), w, progress))
  {
    var id := s.workers[w].message.task;
    KeysKept(s.db.tasks, id, t');
    LeasesKept(s.ledgers[id], Some(s.db.tasks[id]), Some(t'), l', s.leases, Some(w));
    TasksKept(s.db.tasks, s.ledgers, s.leases, id, t', l');
    BornKept(s.db.tasks, s.ledgers, s.leases, s.born, s.slots, id, t', l', Some(w));
    CoveredKept(s.db.tasks, s.ledgers, s.leases, s.born, s.enqueued, s.copies, id, t', l', Some(w));
    WorkersKept(s.workers, s.db.tasks, s.ledgers, s.born, s.leases, id, t', l', Some(w));
    EventsKept(s.db, s.born, s.slots, s.enqueued, id, t');
    SessionPutBack(s.workers, s.db.tasks[id := t'], s.ledgers[id := l'], s.born, s.leases, w, progress);
    HoldersKept(s.copies, s.workers, s.born, s.enqueued, w, progress);
  }

  lemma SessionPutBack(workers: map<Token, Worker>, tasks: map<TaskId, Task>, ledgers: map<TaskId, Ledger>,
                       born: map<EventId, Slot>, leases: set<Token>, w: Token, progress: Progress)
    requires w in workers && w in leases && MessageOk(workers[w].message, born) && workers[w].message.task in ledgers
    requires WorkersOk(workers - {w}, tasks, ledgers, born, leases)
    requires WorkerOk(w, progress, Row(tasks, workers[w].message.task), ledgers[workers[w].message.task],
                      born[workers[w].message.event].generation)
    ensures WorkersOk(workers[w := workers[w].(progress := progress)], tasks, ledgers, born, leases)
  {
    forall v | v in workers && v != w ensures v in workers - {w} {}
  }

  lemma HoldersKept(copies: map<Tag, Copy>, workers: map<Token, Worker>, born: map<EventId, Slot>,
                    enqueued: set<EventId>, w: Token, progress: Progress)
    requires CopiesOk(copies, workers, born, enqueued) && w in workers
    ensures CopiesOk(copies, workers[w := workers[w].(progress := progress)], born, enqueued)
  {}

  // A fresh event for a slot that no event had.
  lemma BirthBorn(tasks: map<TaskId, Task>, ledgers: map<TaskId, Ledger>, born: map<EventId, Slot>,
                  slots: map<Slot, EventId>, e: EventId, id: TaskId, g: nat)
    requires BornOk(tasks, ledgers, born, slots) && e !in born && Slot(id, g) !in slots
    requires id in ledgers && (id in tasks ==> g <= tasks[id].generation)
    requires e.Digest? ==> e == Digest(id, g)
    ensures BornOk(tasks, ledgers, born[e := Slot(id, g)], slots[Slot(id, g) := e])
  {}

  lemma BirthEvents(db: DB, born: map<EventId, Slot>, slots: map<Slot, EventId>, enqueued: set<EventId>,
                    id: TaskId, t': Task, e: EventId, at: Time)
    requires EventsOk(db, born, slots, enqueued) && e !in born
    requires if id in db.tasks then t'.generation == db.tasks[id].generation + 1 else t'.generation == 0
    ensures EventsOk(DB(db.tasks[id := t'], db.events[e := NewEvent(id, t'.generation, at)]),
                     born[e := Slot(id, t'.generation)], slots[Slot(id, t'.generation) := e], enqueued)
  {
    var db' := DB(db.tasks[id := t'], db.events[e := NewEvent(id, t'.generation, at)]);
    var slots' := slots[Slot(id, t'.generation) := e];
    forall slot: Slot | slot.task in db'.tasks && slot.generation <= db'.tasks[slot.task].generation
      ensures slot in slots' && slots'[slot] in db'.events
    {
      if slot != Slot(id, t'.generation) {
        assert slot.task in db.tasks && slot.generation <= db.tasks[slot.task].generation;
      }
    }
  }

  // The remaining clauses only look at `born` through events they already know.
  lemma BirthOthers(s: State, tasks: map<TaskId, Task>, ledgers: map<TaskId, Ledger>, e: EventId, slot: Slot)
    requires e !in s.born
    requires CopiesOk(s.copies, s.workers, s.born, s.enqueued)
    requires WorkersOk(s.workers, tasks, ledgers, s.born, s.leases)
    requires PublishersOk(s.publishers, s.claims, s.born)
    requires Covered(tasks, s.born, s.enqueued, s.copies)
    ensures CopiesOk(s.copies, s.workers, s.born[e := slot], s.enqueued)
    ensures WorkersOk(s.workers, tasks, ledgers, s.born[e := slot], s.leases)
    ensures PublishersOk(s.publishers, s.claims, s.born[e := slot])
    ensures Covered(tasks, s.born[e := slot], s.enqueued, s.copies)
  {
    assert forall m | MessageOk(m, s.born) :: MessageOk(m, s.born[e := slot]);
  }

  // A new event is nobody's to mark.
  lemma BirthConfirms(publishers: map<Token, Publisher>, events: map<EventId, Event>, enqueued: set<EventId>,
                      e: EventId, event: Event)
    requires ConfirmsOk(publishers, events, enqueued) && event.claimToken.None?
    ensures ConfirmsOk(publishers, events[e := event], enqueued)
  {}

  // A task that moves on to its next generation, together with the event that announces it.
  lemma GenerationKeeps(s: State, id: TaskId, t': Task, l': Ledger, e: EventId, at: Time)
    requires Inv(s) && MayMove(s.db.tasks, s.ledgers, s.leases, id, t', l', None)
    requires t'.generation == s.db.tasks[id].generation + 1
    requires if e.Digest? then e == Digest(id, t'.generation) else e !in s.born
    ensures Inv(WithBirth(WithRow(s, id, t', l'), e, id, t'.generation, at))
  {
    SlotFree(s, id, t'.generation);
    KeysKept(s.db.tasks, id, t');
    LeasesKept(s.ledgers[id], Some(s.db.tasks[id]), Some(t'), l', s.leases, None);
    TasksKept(s.db.tasks, s.ledgers, s.leases, id, t', l');
    BornKept(s.db.tasks, s.ledgers, s.leases, s.born, s.slots, id, t', l', None);
    CoveredKept(s.db.tasks, s.ledgers, s.leases, s.born, s.enqueued, s.copies, id, t', l', None);
    WorkersKept(s.workers, s.db.tasks, s.ledgers, s.born, s.leases, id, t', l', None);
    BirthBorn(s.db.tasks[id := t'], s.ledgers[id := l'], s.born, s.slots, e, id, t'.generation);
    BirthEvents(s.db, s.born, s.slots, s.enqueued, id, t', e, at);
    BirthOthers(s, s.db.tasks[id := t'], s.ledgers[id := l'], e, Slot(id, t'.generation));
    BirthConfirms(s.publishers, s.db.events, s.enqueued, e, NewEvent(id, t'.generation, at));
  }

  // No event has been born for a generation the task has not reached.
  lemma SlotFree(s: State, id: TaskId, g: nat)
    requires BornOk(s.db.tasks, s.ledgers, s.born, s.slots)
    requires EventsOk(s.db, s.born, s.slots, s.enqueued)
    requires if id in s.db.tasks then g > s.db.tasks[id].generation else id !in s.ledgers
    ensures Slot(id, g) !in s.slots && Digest(id, g) !in s.born && !SlotTaken(s.db.events, id, g)
  {
  }

  // A task that moves on within its generation.
  lemma MoveKeeps(s: State, id: TaskId, t': Task, l': Ledger, actor: Option<Token>)
    requires Inv(s) && MayMove(s.db.tasks, s.ledgers, s.leases, id, t', l', actor)
    requires t'.generation == s.db.tasks[id].generation
    requires actor.None?
    ensures Inv(WithRow(s, id, t', l'))
  {
    KeysKept(s.db.tasks, id, t');
    LeasesKept(s.ledgers[id], Some(s.db.tasks[id]), Some(t'), l', s.leases, actor);
    TasksKept(s.db.tasks, s.ledgers, s.leases, id, t', l');
    BornKept(s.db.tasks, s.ledgers, s.leases, s.born, s.slots, id, t', l', actor);
    CoveredKept(s.db.tasks, s.ledgers, s.leases, s.born, s.enqueued, s.copies, id, t', l', actor);
    WorkersKept(s.workers, s.db.tasks, s.ledgers, s.born, s.leases, id, t', l', actor);
    EventsKept(s.db, s.born, s.slots, s.enqueued, id, t');
  }

  // ---------- the steps ----------

  lemma CreateStep(s: State, id: TaskId, request: Request, event: EventId)
    requires Inv(s) && Enabled(s, Create(id, request, event))
    ensures Inv(DoCreate(s, id, request, event))
  {
    if !KeyTaken(s.db, request) {
      var t, l := NewTask(request), NewLedger(request);
      CreateKeeps(request);
      SlotFree(s, id, 0);
      assert id !in s.db.tasks;
      CreateTasks(s.db.tasks, s.ledgers, s.leases, id, request);
      CreateBorn(s, id, t, l);
      BirthBorn(s.db.tasks[id := t], s.ledgers[id := l], s.born, s.slots, event, id, 0);
      BirthEvents(s.db, s.born, s.slots, s.enqueued, id, t, event, request.createdAt);
      BirthOthers(s, s.db.tasks[id := t], s.ledgers[id := l], event, Slot(id, 0));
      BirthConfirms(s.publishers, s.db.events, s.enqueued, event, NewEvent(id, 0, request.createdAt));
    }
  }

  lemma CreateTasks(tasks: map<TaskId, Task>, ledgers: map<TaskId, Ledger>, leases: set<Token>, id: TaskId,
                    request: Request)
    requires KeysUnique(tasks) && TasksOk(tasks, ledgers, leases) && id !in ledgers
    requires !KeyTaken(DB(tasks, map[]), request) && request.Admissible()
    ensures KeysUnique(tasks[id := NewTask(request)])
    ensures TasksOk(tasks[id := NewTask(request)], ledgers[id := NewLedger(request)], leases)
  {
    CreateKeeps(request);
    assert forall i | i in tasks :: !tasks[i].request.SameKey(request);
    forall i | i in tasks ensures i in ledgers && i != id && TaskOk(tasks[i], ledgers[i]) {}
  }

  lemma CreateBorn(s: State, id: TaskId, t: Task, l: Ledger)
    requires Inv(s) && id !in s.ledgers && id !in s.db.tasks
    ensures BornOk(s.db.tasks[id := t], s.ledgers[id := l], s.born, s.slots)
    ensures WorkersOk(s.workers, s.db.tasks[id := t], s.ledgers[id := l], s.born, s.leases)
    ensures Covered(s.db.tasks[id := t], s.born, s.enqueued, s.copies)
  {
    forall e | e in s.enqueued && !Settled(Row(s.db.tasks[id := t], s.born[e].task), s.born[e].generation)
      ensures HasCopy(s.copies, e)
    {
      assert s.born[e].task in s.ledgers;
    }
  }

  lemma ClaimStep(s: State, w: Token, until: Time, at: Time, fault: Fault)
    requires Inv(s) && Enabled(s, Claim(w, until, at, fault))
    ensures Inv(DoClaim(s, w, until, at, fault))
  {
    var id, g := s.workers[w].message.task, s.born[s.workers[w].message.event].generation;
    if id in s.db.tasks && s.db.tasks[id].status == Pending && fault != Lost {
      var t', l' := ClaimRow(s.db.tasks[id], w, until, at), Granted(s.ledgers[id], w);
      ClaimKeeps(s.db.tasks[id], s.ledgers[id], w, until, at);
      WorkerMoveKeeps(s, w, t', l', if fault == Answered then Claimed(t') else Done(Requeue));
    } else {
      AdvanceKeeps(s, w, if fault == Answered then Done(Ack) else Done(Requeue));
    }
  }

  lemma AdmitStep(s: State, w: Token, admitted: bool)
    requires Inv(s) && Enabled(s, Admit(w, admitted))
    ensures Inv(Do(s, Admit(w, admitted)))
  {
    AdvanceKeeps(s, w, if admitted then Admitted(s.workers[w].progress.snapshot) else Done(Requeue));
  }

  lemma SendMoves(s: State, w: Token, result: SendResult)
    requires Inv(s) && w in s.workers && s.workers[w].progress.Admitted? && SenderMayReturn(result)
    requires s.workers[w].message.task in s.db.tasks
    ensures var id := s.workers[w].message.task;
            MayMove(s.db.tasks, s.ledgers, s.leases, id, s.db.tasks[id], Sent(s.ledgers[id], w, result), Some(w))
  {
    var id := s.workers[w].message.task;
    assert TaskOk(s.db.tasks[id], s.ledgers[id]);
    SendKeepsTask(s.db.tasks[id], s.ledgers[id], w, result);
  }

  lemma SendPresent(s: State, w: Token, id: TaskId, result: SendResult, progress: Progress)
    requires Inv(s) && w in s.workers && s.workers[w].progress.Admitted? && SenderMayReturn(result)
    requires id == s.workers[w].message.task && id in s.db.tasks
    requires progress == Answer(s.workers[w].progress.snapshot, result)
    ensures Inv(Advance(WithRow(s, id, s.db.tasks[id], Sent(s.ledgers[id], w, result)), w, progress))
  {
    var l', g := Sent(s.ledgers[id], w, result), s.born[s.workers[w].message.event].generation;
    SendMoves(s, w, result);
    assert WorkerOk(w, progress, Some(s.db.tasks[id]), l', g) by {
      assert WorkerOk(w, s.workers[w].progress, Some(s.db.tasks[id]), s.ledgers[id], g);
    }
    WorkerMoveKeeps(s, w, s.db.tasks[id], l', progress);
  }

  lemma SendIs(s: State, w: Token, result: SendResult)
    requires w in s.workers && s.workers[w].progress.Admitted? && s.workers[w].message.task in s.db.tasks
    requires s.workers[w].message.task in s.ledgers
    ensures var id := s.workers[w].message.task;
            DoSend(s, w, result) ==
            Advance(WithRow(s, id, s.db.tasks[id], Sent(s.ledgers[id], w, result)), w,
                    Answer(s.workers[w].progress.snapshot, result))
  {
    var id := s.workers[w].message.task;
    assert s.db.tasks[id := s.db.tasks[id]] == s.db.tasks;
  }

  lemma SendStep(s: State, w: Token, result: SendResult)
    requires Inv(s) && w in s.workers && s.workers[w].progress.Admitted? && SenderMayReturn(result)
    ensures Inv(DoSend(s, w, result))
  {
    var id := s.workers[w].message.task;
    var progress := Answer(s.workers[w].progress.snapshot, result);
    if id in s.db.tasks {
      SendIs(s, w, result);
      SendPresent(s, w, id, result, progress);
    } else {
      SendAfterDelete(s, w, id, result, progress);
    }
  }

  // The row may be gone by the time its worker sends; the history still counts the call.
  lemma SendAfterDelete(s: State, w: Token, id: TaskId, result: SendResult, progress: Progress)
    requires Inv(s) && w in s.workers && s.workers[w].progress.Admitted? && SenderMayReturn(result)
    requires id == s.workers[w].message.task && id !in s.db.tasks
    requires progress == Answer(s.workers[w].progress.snapshot, result)
    ensures Inv(Advance(s.(ledgers := s.ledgers[id := Sent(s.ledgers[id], w, result)]), w, progress))
  {
    var l' := Sent(s.ledgers[id], w, result);
    SendKeeps(s.ledgers[id], w, result);
    SentLedger(s, w, id, l');
    SessionPutBack(s.workers, s.db.tasks, s.ledgers[id := l'], s.born, s.leases, w, progress);
    HoldersKept(s.copies, s.workers, s.born, s.enqueued, w, progress);
  }

  lemma SentLedger(s: State, w: Token, id: TaskId, l': Ledger)
    requires Inv(s) && id in s.ledgers && id !in s.db.tasks && LedgerOk(l') && l'.granted == s.ledgers[id].granted
    requires MovesOn(None, s.ledgers[id], None, l', Some(w))
    ensures TasksOk(s.db.tasks, s.ledgers[id := l'], s.leases)
    ensures BornOk(s.db.tasks, s.ledgers[id := l'], s.born, s.slots)
    ensures WorkersOk(s.workers - {w}, s.db.tasks, s.ledgers[id := l'], s.born, s.leases)
  {
    SentTasks(s.db.tasks, s.ledgers, s.leases, id, l');
    SentWorkers(s, w, id, l');
  }

  lemma SentTasks(tasks: map<TaskId, Task>, ledgers: map<TaskId, Ledger>, leases: set<Token>, id: TaskId, l': Ledger)
    requires TasksOk(tasks, ledgers, leases) && id in ledgers && id !in tasks
    requires LedgerOk(l') && l'.granted == ledgers[id].granted
    ensures TasksOk(tasks, ledgers[id := l'], leases)
  {
    forall i | i in tasks ensures i in ledgers[id := l'] && TaskOk(tasks[i], ledgers[id := l'][i]) {
      assert ledgers[id := l'][i] == ledgers[i];
    }
  }

  lemma SentWorkers(s: State, w: Token, id: TaskId, l': Ledger)
    requires WorkersOk(s.workers, s.db.tasks, s.ledgers, s.born, s.leases) && id in s.ledgers && id !in s.db.tasks
    requires MovesOn(None, s.ledgers[id], None, l', Some(w))
    ensures WorkersOk(s.workers - {w}, s.db.tasks, s.ledgers[id := l'], s.born, s.leases)
  {
    forall v | v in s.workers && v != w && s.workers[v].message.task == id
      ensures WorkerOk(v, s.workers[v].progress, None, l', s.born[s.workers[v].message.event].generation)
    {
      WorkerStays(v, s.workers[v].progress, None, s.ledgers[id], None, l',
                  s.born[s.workers[v].message.event].generation, Some(w));
    }
  }

  // Under its own lease the decision is one the row's history admits: the row is the one the
  // session was shown, so a retry is only decided below the attempt budget.
  lemma ApplyMoves(s: State, w: Token, r: AttemptResult, completedAt: Time, jittered: Duration)
    requires Inv(s) && w in s.workers && s.workers[w].progress.Answer?
    requires r == Decision(s.workers[w], completedAt, jittered)
    requires s.workers[w].message.task in s.db.tasks && Owns(s.db.tasks[s.workers[w].message.task], w)
    ensures var id := s.workers[w].message.task;
            MayMove(s.db.tasks, s.ledgers, s.leases, id, ApplyRow(s.db.tasks[id], r),
                    Applied(s.ledgers[id], w, r.outcome), Some(w))
  {
    var id := s.workers[w].message.task;
    var t := s.db.tasks[id];
    assert TaskOk(t, s.ledgers[id]);
    assert Current(w, s.workers[w].progress.snapshot, Some(t));
    DecisionFits(s.workers[w], t, s.ledgers[id], r, completedAt, jittered);
    ApplyKeeps(t, s.ledgers[id], w, r);
  }

  lemma DecisionFits(worker: Worker, t: Task, l: Ledger, r: AttemptResult, completedAt: Time, jittered: Duration)
    requires worker.progress.Answer? && r == Decision(worker, completedAt, jittered)
    requires worker.progress.snapshot.attempts == t.attempts && worker.progress.snapshot.request == t.request
    requires t.request.policy.maxAttempts == l.maxAttempts && SenderMayReturn(worker.progress.result)
    ensures r.outcome == Retryable ==> r.nextAttemptAt.Some? && t.attempts < l.maxAttempts
    ensures r.outcome == Succeeded ==> worker.progress.result.outcome == Succeeded && 200 <= r.httpStatus < 300
  {}

  lemma ApplyStep(s: State, w: Token, completedAt: Time, jittered: Duration, fault: Fault)
    requires Inv(s) && Enabled(s, Apply(w, completedAt, jittered, fault))
    ensures Inv(DoApply(s, w, completedAt, jittered, fault))
  {
    var id, g := s.workers[w].message.task, s.born[s.workers[w].message.event].generation;
    var r := Decision(s.workers[w], completedAt, jittered);
    var progress := Done(if fault == Answered then Ack else Requeue);
    assert Settled(Row(s.db.tasks, id), g);
    if fault != Lost && id in s.db.tasks && Owns(s.db.tasks[id], w) {
      var t', l' := ApplyRow(s.db.tasks[id], r), Applied(s.ledgers[id], w, r.outcome);
      ApplyMoves(s, w, r, completedAt, jittered);
      SettledStays(Some(s.db.tasks[id]), s.ledgers[id], Some(t'), l', g, Some(w));
      WorkerMoveKeeps(s, w, t', l', progress);
    } else {
      AdvanceKeeps(s, w, progress);
    }
  }

  lemma ScheduleMoves(tasks: map<TaskId, Task>, ledgers: map<TaskId, Ledger>, leases: set<Token>, id: TaskId, now: Time)
    requires TasksOk(tasks, ledgers, leases) && id in tasks && Due(tasks[id], now)
    ensures id in ledgers
    ensures MayMove(tasks, ledgers, leases, id, ScheduleRow(tasks[id], now), Scheduled(ledgers[id], tasks[id]), None)
  {
    assert TaskOk(tasks[id], ledgers[id]);
    ScheduleKeeps(tasks[id], ledgers[id], now);
  }

  lemma RescheduleIs(s: State, id: TaskId, now: Time, t': Task, l': Ledger)
    requires id in s.db.tasks && id in s.ledgers && !Exhausted(s.db.tasks[id], now)
    requires !SlotTaken(s.db.events, id, s.db.tasks[id].generation + 1)
    requires t' == ScheduleRow(s.db.tasks[id], now) && l' == Scheduled(s.ledgers[id], s.db.tasks[id])
    ensures t'.generation == s.db.tasks[id].generation + 1
    ensures DoScheduleOne(s, id, now) ==
            WithBirth(WithRow(s, id, t', l'), Digest(id, t'.generation), id, t'.generation, now)
  {}

  lemma RescheduleStep(s: State, id: TaskId, now: Time, t': Task, l': Ledger)
    requires Inv(s) && id in s.db.tasks && id in s.ledgers && !Exhausted(s.db.tasks[id], now)
    requires t' == ScheduleRow(s.db.tasks[id], now) && l' == Scheduled(s.ledgers[id], s.db.tasks[id])
    requires MayMove(s.db.tasks, s.ledgers, s.leases, id, t', l', None)
    ensures Inv(DoScheduleOne(s, id, now))
  {
    SlotFree(s, id, s.db.tasks[id].generation + 1);
    RescheduleIs(s, id, now, t', l');
    GenerationKeeps(s, id, t', l', Digest(id, t'.generation), now);
  }

  lemma ScheduleOneStep(s: State, id: TaskId, now: Time)
    requires Inv(s) && id in s.db.tasks && Due(s.db.tasks[id], now)
    ensures Inv(DoScheduleOne(s, id, now))
  {
    ScheduleMoves(s.db.tasks, s.ledgers, s.leases, id, now);
    var t', l' := ScheduleRow(s.db.tasks[id], now), Scheduled(s.ledgers[id], s.db.tasks[id]);
    if Exhausted(s.db.tasks[id], now) {
      MoveKeeps(s, id, t', l', None);
    } else {
      RescheduleStep(s, id, now, t', l');
    }
  }

  lemma ScheduleOneApart(s: State, turn: TaskId, now: Time)
    ensures DoScheduleOne(s, turn, now).db.tasks.Keys == s.db.tasks.Keys
    ensures forall id | id in s.db.tasks && id != turn :: DoScheduleOne(s, turn, now).db.tasks[id] == s.db.tasks[id]
  {}

  // Scheduling some rows leaves the others as they were.
  lemma {:induction false} ScheduleRowsApart(s: State, rows: seq<TaskId>, now: Time)
    ensures DoSchedule(s, rows, now).db.tasks.Keys == s.db.tasks.Keys
    ensures forall id | id in s.db.tasks && id !in rows :: DoSchedule(s, rows, now).db.tasks[id] == s.db.tasks[id]
  {
    if rows == [] {
    } else {
      var init := rows[..|rows| - 1];
      assert rows == init + [rows[|rows| - 1]];
      ScheduleRowsApart(s, init, now);
      ScheduleOneApart(DoSchedule(s, init, now), rows[|rows| - 1], now);
    }
  }

  lemma {:induction false} ScheduleStep(s: State, now: Time, rows: seq<TaskId>)
    requires Inv(s) && DueRows(s.db, rows, now)
    ensures Inv(DoSchedule(s, rows, now))
    decreases |rows|
  {
    if rows == [] {
    } else {
      var init, id := rows[..|rows| - 1], rows[|rows| - 1];
      ScheduleStep(s, now, init);
      ScheduleRowsApart(s, init, now);
      assert id in rows && id !in init;
      ScheduleOneStep(DoSchedule(s, init, now), id, now);
    }
  }

  lemma ReplayStep(s: State, id: TaskId, now: Time, event: EventId)
    requires Inv(s) && Enabled(s, Replay(id, now, event))
    ensures Inv(DoReplay(s, id, now, event))
  {
    if id in s.db.tasks && s.db.tasks[id].status == Dead {
      ReplayKeeps(s.db.tasks[id], s.ledgers[id], now);
      GenerationKeeps(s, id, ReplayRow(s.db.tasks[id], now), Replayed(s.ledgers[id]), event, now);
    }
  }

  lemma DeleteWorkers(s: State, doomed: set<TaskId>)
    requires Inv(s)
    ensures WorkersOk(s.workers, Delete(s.db, doomed).tasks, s.ledgers, s.born, s.leases)
  {
    var tasks := Delete(s.db, doomed).tasks;
    forall w | w in s.workers
      ensures WorkerOk(w, s.workers[w].progress, Row(tasks, s.workers[w].message.task),
                       s.ledgers[s.workers[w].message.task], s.born[s.workers[w].message.event].generation)
    {
      var id := s.workers[w].message.task;
      assert Row(tasks, id) == None || Row(tasks, id) == Row(s.db.tasks, id);
    }
  }

  lemma DeleteEvents(s: State, doomed: set<TaskId>)
    requires Inv(s)
    ensures EventsOk(Delete(s.db, doomed), s.born, s.slots, s.enqueued)
  {
    var db := Delete(s.db, doomed);
    forall slot: Slot | slot.task in db.tasks && slot.generation <= db.tasks[slot.task].generation
      ensures slot in s.slots && s.slots[slot] in db.events
    {
      assert slot.task in s.db.tasks;
      assert s.born[s.slots[slot]] == slot && EventOk(s.slots[slot], s.db.events[s.slots[slot]], s.born, s.enqueued);
    }
  }

  lemma DeleteTasks(s: State, doomed: set<TaskId>)
    requires Inv(s)
    ensures var tasks := Delete(s.db, doomed).tasks;
            KeysUnique(tasks) && TasksOk(tasks, s.ledgers, s.leases)
  {
    var tasks := Delete(s.db, doomed).tasks;
    forall id | id in tasks ensures id in s.ledgers && TaskOk(tasks[id], s.ledgers[id]) {
      assert id in s.db.tasks;
    }
  }

  lemma DeleteStep(s: State, cutoff: Time, doomed: set<TaskId>)
    requires Inv(s) && Enabled(s, DeleteTerminal(cutoff, doomed))
    ensures Inv(Do(s, DeleteTerminal(cutoff, doomed)))
  {
    DeleteTasks(s, doomed);
    DeleteEvents(s, doomed);
    DeleteWorkers(s, doomed);
    var tasks := Delete(s.db, doomed).tasks;
    assert BornOk(tasks, s.ledgers, s.born, s.slots);
    assert Covered(tasks, s.born, s.enqueued, s.copies);
    assert ConfirmsOk(s.publishers, Delete(s.db, doomed).events, s.enqueued);
  }

  // A claim takes its rows from whoever had them.
  lemma ClaimConfirms(s: State, p: Token, events: seq<EventId>, until: Time, fault: Fault)
    requires ConfirmsOk(s.publishers, s.db.events, s.enqueued) && p !in s.publishers
    requires forall e | e in events :: e in s.db.events
    ensures var s' := DoClaimOutbox(s, p, events, until, fault);
            ConfirmsOk(s'.publishers, s'.db.events, s'.enqueued)
  {}

  lemma ClaimPublishers(s: State, p: Token, events: seq<EventId>, until: Time, fault: Fault)
    requires EventsOk(s.db, s.born, s.slots, s.enqueued) && PublishersOk(s.publishers, s.claims, s.born)
    requires forall e | e in events :: e in s.db.events
    ensures var s' := DoClaimOutbox(s, p, events, until, fault);
            PublishersOk(s'.publishers, s'.claims, s'.born)
  {
    forall i | 0 <= i < |events|
      ensures MessageOk(Message(events[i], s.db.events[events[i]].aggregate), s.born)
    {
      assert events[i] in events;
      assert EventOk(events[i], s.db.events[events[i]], s.born, s.enqueued);
    }
  }

  lemma ClaimEvents(s: State, p: Token, events: seq<EventId>, now: Time, until: Time)
    requires EventsOk(s.db, s.born, s.slots, s.enqueued) && ClaimableRows(s.db, events, now)
    ensures EventsOk(Tables.ClaimOutbox(s.db, events, p, until), s.born, s.slots, s.enqueued)
  {
    var db := Tables.ClaimOutbox(s.db, events, p, until);
    assert db.events.Keys == s.db.events.Keys;
    forall e | e in db.events
      ensures EventOk(e, db.events[e], s.born, s.enqueued) && db.events[e].aggregate in db.tasks
    {
      assert EventOk(e, s.db.events[e], s.born, s.enqueued);
    }
  }

  lemma ClaimOutboxStep(s: State, p: Token, events: seq<EventId>, now: Time, until: Time, fault: Fault)
    requires Inv(s) && Enabled(s, Step.ClaimOutbox(p, events, now, until, fault))
    ensures Inv(DoClaimOutbox(s, p, events, until, fault))
  {
    ClaimConfirms(s, p, events, until, fault);
    ClaimPublishers(s, p, events, until, fault);
    ClaimEvents(s, p, events, now, until);
  }

  // A new copy is one more way to cover its event.
  lemma CopyAdded(s: State, tag: Tag, m: Message)
    requires Inv(s) && tag !in s.copies && MessageOk(m, s.born)
    ensures CopiesOk(s.copies[tag := Copy(m, None)], s.workers, s.born, s.enqueued + {m.event})
    ensures Covered(s.db.tasks, s.born, s.enqueued + {m.event}, s.copies[tag := Copy(m, None)])
    ensures EventsOk(s.db, s.born, s.slots, s.enqueued + {m.event})
  {
    var copies := s.copies[tag := Copy(m, None)];
    forall e | HasCopy(s.copies, e) || e == m.event ensures HasCopy(copies, e) {
      if e == m.event {
        assert copies[tag].message.event == e;
      } else {
        var known :| known in s.copies && s.copies[known].message.event == e;
        assert copies[known].message.event == e;
      }
    }
    forall e | e in s.db.events ensures EventOk(e, s.db.events[e], s.born, s.enqueued + {m.event}) {
      assert EventOk(e, s.db.events[e], s.born, s.enqueued);
    }
  }

  lemma PublishersMoved(publishers: map<Token, Publisher>, claims: set<Token>, born: map<EventId, Slot>,
                        p: Token, session: Publisher)
    requires PublishersOk(publishers, claims, born) && p in publishers
    ensures PublishersOk(publishers - {p}, claims, born)
    ensures session.batch == publishers[p].batch && session.next <= |session.batch|
            && (session.confirmed ==> session.next < |session.batch|)
            ==> PublishersOk(publishers[p := session], claims, born)
  {}

  lemma ConfirmsMoved(publishers: map<Token, Publisher>, events: map<EventId, Event>, enqueued: set<EventId>,
                      p: Token, session: Publisher, enqueued': set<EventId>)
    requires ConfirmsOk(publishers, events, enqueued) && enqueued <= enqueued'
    ensures ConfirmsOk(publishers - {p}, events, enqueued')
    ensures (session.confirmed && session.next < |session.batch| ==> session.batch[session.next].event in enqueued')
            ==> ConfirmsOk(publishers[p := session], events, enqueued')
  {}

  lemma PublishStep(s: State, p: Token, tag: Tag, arrives: bool, confirmed: bool)
    requires Inv(s) && Enabled(s, Publish(p, tag, arrives, confirmed))
    ensures Inv(DoPublish(s, p, tag, arrives, confirmed))
  {
    var session := s.publishers[p];
    var m := session.batch[session.next];
    var enqueued := if arrives then s.enqueued + {m.event} else s.enqueued;
    assert m in session.batch && MessageOk(m, s.born);
    if arrives {
      CopyAdded(s, tag, m);
    }
    PublishersMoved(s.publishers, s.claims, s.born, p, session.(confirmed := true));
    ConfirmsMoved(s.publishers, s.db.events, s.enqueued, p, session.(confirmed := true), enqueued);
  }

  lemma MarkPublishedStep(s: State, p: Token, at: Time, fault: Fault)
    requires Inv(s) && Enabled(s, Step.MarkPublished(p, at, fault))
    ensures Inv(DoMarkPublished(s, p, at, fault))
  {
    var session := s.publishers[p];
    assert AboutToMark(p, session, s.db.events) ==> session.batch[session.next].event in s.enqueued;
    MarkEvents(s, session.batch[session.next].event, p, at);
    MarkSessions(s, p, at, fault);
  }

  lemma MarkSessions(s: State, p: Token, at: Time, fault: Fault)
    requires PublishersOk(s.publishers, s.claims, s.born) && ConfirmsOk(s.publishers, s.db.events, s.enqueued)
    requires p in s.publishers && s.publishers[p].next < |s.publishers[p].batch|
    ensures var t := DoMarkPublished(s, p, at, fault);
      PublishersOk(t.publishers, s.claims, s.born) && ConfirmsOk(t.publishers, t.db.events, s.enqueued)
  {
    var session := s.publishers[p];
    var after, t := DoMarkPublished(s, p, at, Answered).publishers[p], DoMarkPublished(s, p, at, fault);
    MarkConfirms(s.publishers, s.db, s.enqueued, session.batch[session.next].event, p, at);
    PublishersMoved(s.publishers, s.claims, s.born, p, after);
    ConfirmsMoved(s.publishers, t.db.events, s.enqueued, p, after, s.enqueued);
  }

  lemma MarkEvents(s: State, event: EventId, p: Token, at: Time)
    requires EventsOk(s.db, s.born, s.slots, s.enqueued)
    requires event in s.db.events && MarkMatches(s.db.events[event], p) ==> event in s.enqueued
    ensures EventsOk(Tables.MarkPublished(s.db, event, p, at), s.born, s.slots, s.enqueued)
  {
    if event in s.db.events {
      assert EventOk(event, s.db.events[event], s.born, s.enqueued);
    }
  }

  lemma MarkConfirms(publishers: map<Token, Publisher>, db: DB, enqueued: set<EventId>,
                     event: EventId, p: Token, at: Time)
    requires ConfirmsOk(publishers, db.events, enqueued)
    ensures ConfirmsOk(publishers, Tables.MarkPublished(db, event, p, at).events, enqueued)
  {}

  // Handing a copy over, or taking it back, keeps every copy.
  lemma CopiesMoved(copies: map<Tag, Copy>, tag: Tag, holder: Option<Token>)
    requires tag in copies
    ensures forall e | HasCopy(copies, e) :: HasCopy(copies[tag := copies[tag].(holder := holder)], e)
  {
    var copies' := copies[tag := copies[tag].(holder := holder)];
    forall e | HasCopy(copies, e) ensures HasCopy(copies', e) {
      var known :| known in copies && copies[known].message.event == e;
      assert copies'[known].message.event == e;
    }
  }

  lemma ReceiveStep(s: State, tag: Tag, w: Token)
    requires Inv(s) && Enabled(s, Receive(tag, w))
    ensures Inv(DoReceive(s, tag, w))
  {
    CopiesMoved(s.copies, tag, Some(w));
    ReceivedCopies(s.copies, s.workers, s.born, s.enqueued, tag, w);
    var id := s.copies[tag].message.task;
    assert s.copies[tag].message.event in s.born && s.born[s.copies[tag].message.event].task == id;
    assert id in s.ledgers && LedgerOk(s.ledgers[id]) && s.ledgers[id].granted <= s.leases;
    ReceivedWorkers(s.workers, s.db.tasks, s.ledgers, s.born, s.leases,
                    Worker(tag, s.copies[tag].message, Received), w);
  }

  lemma ReceivedCopies(copies: map<Tag, Copy>, workers: map<Token, Worker>, born: map<EventId, Slot>,
                       enqueued: set<EventId>, tag: Tag, w: Token)
    requires CopiesOk(copies, workers, born, enqueued) && tag in copies && copies[tag].holder.None? && w !in workers
    ensures CopiesOk(copies[tag := copies[tag].(holder := Some(w))],
                     workers[w := Worker(tag, copies[tag].message, Received)], born, enqueued)
  {}

  lemma ReceivedWorkers(workers: map<Token, Worker>, tasks: map<TaskId, Task>, ledgers: map<TaskId, Ledger>,
                        born: map<EventId, Slot>, leases: set<Token>, worker: Worker, w: Token)
    requires WorkersOk(workers, tasks, ledgers, born, leases) && w !in leases && worker.progress == Received
    requires MessageOk(worker.message, born) && worker.message.task in ledgers
    requires w !in ledgers[worker.message.task].granted && w !in ledgers[worker.message.task].sent
    ensures WorkersOk(workers[w := worker], tasks, ledgers, born, leases + {w})
  {}

  lemma RedeliverStep(s: State, tag: Tag)
    requires Inv(s) && Enabled(s, Redeliver(tag))
    ensures Inv(Do(s, Redeliver(tag)))
  {
    CopiesMoved(s.copies, tag, None);
  }

  lemma ReleaseCopies(s: State, w: Token)
    requires Inv(s) && w in s.workers
    ensures CopiesOk(Release(s.copies, s.workers[w].tag, w), s.workers - {w}, s.born, s.enqueued)
    ensures Covered(s.db.tasks, s.born, s.enqueued, Release(s.copies, s.workers[w].tag, w))
  {
    ReleaseHolder(s.copies, s.workers, s.born, s.enqueued, w);
    ReleaseKeepsCopies(s.copies, s.workers[w].tag, w);
  }

  lemma ReleaseHolder(copies: map<Tag, Copy>, workers: map<Token, Worker>, born: map<EventId, Slot>,
                      enqueued: set<EventId>, w: Token)
    requires CopiesOk(copies, workers, born, enqueued) && w in workers
    ensures CopiesOk(Release(copies, workers[w].tag, w), workers - {w}, born, enqueued)
  {}

  lemma ReleaseKeepsCopies(copies: map<Tag, Copy>, tag: Tag, w: Token)
    ensures forall e | HasCopy(copies, e) :: HasCopy(Release(copies, tag, w), e)
  {
    if tag in copies {
      CopiesMoved(copies, tag, None);
    }
  }

  lemma ReleaseKeeps(s: State, w: Token)
    requires Inv(s) && w in s.workers
    ensures Inv(s.(workers := s.workers - {w}, copies := Release(s.copies, s.workers[w].tag, w)))
  {
    ReleaseCopies(s, w);
  }

  // An acknowledged copy may go: its session has seen the task settle.
  lemma DisposeStep(s: State, w: Token)
    requires Inv(s) && Enabled(s, Dispose(w))
    ensures Inv(Do(s, Dispose(w)))
  {
    var tag := s.workers[w].tag;
    if s.workers[w].progress.disposition == Requeue {
      ReleaseKeeps(s, w);
    } else if tag in s.copies && s.copies[tag].holder == Some(w) {
      AckCopies(s, w, tag);
    }
  }

  lemma DoneIsSettled(s: State, w: Token)
    requires Inv(s) && w in s.workers && s.workers[w].progress == Done(Ack)
    ensures var m := s.workers[w].message;
            MessageOk(m, s.born) && Settled(Row(s.db.tasks, m.task), s.born[m.event].generation)
  {
    var m := s.workers[w].message;
    assert MessageOk(m, s.born) && m.task in s.ledgers;
    assert WorkerOk(w, s.workers[w].progress, Row(s.db.tasks, m.task), s.ledgers[m.task], s.born[m.event].generation);
  }

  lemma AckedIsSettled(s: State, w: Token, tag: Tag)
    requires Inv(s) && w in s.workers && s.workers[w].progress == Done(Ack)
    requires tag == s.workers[w].tag && tag in s.copies && s.copies[tag].holder == Some(w)
    ensures var e := s.copies[tag].message.event;
            e in s.born && Settled(Row(s.db.tasks, s.born[e].task), s.born[e].generation)
  {
    DoneIsSettled(s, w);
  }

  lemma AckCopies(s: State, w: Token, tag: Tag)
    requires Inv(s) && w in s.workers && s.workers[w].progress == Done(Ack)
    requires tag == s.workers[w].tag && tag in s.copies && s.copies[tag].holder == Some(w)
    ensures Covered(s.db.tasks, s.born, s.enqueued, s.copies - {tag})
  {
    var copies := s.copies - {tag};
    AckedIsSettled(s, w, tag);
    forall e | e in s.enqueued && !Settled(Row(s.db.tasks, s.born[e].task), s.born[e].generation)
      ensures HasCopy(copies, e)
    {
      var known :| known in s.copies && s.copies[known].message.event == e;
      assert known in copies && copies[known].message.event == e;
    }
  }

  lemma StopPublisherStep(s: State, p: Token)
    requires Inv(s) && Enabled(s, StopPublisher(p))
    ensures Inv(Do(s, StopPublisher(p)))
  {
    PublishersMoved(s.publishers, s.claims, s.born, p, s.publishers[p]);
    ConfirmsMoved(s.publishers, s.db.events, s.enqueued, p, s.publishers[p], s.enqueued);
  }

  // The statements and calls of Handle.
  predicate HandleStep(step: Step) {
    step.Claim? || step.Admit? || step.Send? || step.Apply?
  }

  // What moves copies between the queue and the sessions.
  predicate BrokerStep(step: Step) {
    step.Receive? || step.Redeliver? || step.Dispose? || step.CrashWorker?
  }

  lemma ClaimingKeeps(s: State, w: Token, until: Time, at: Time, fault: Fault)
    requires Inv(s) && Enabled(s, Claim(w, until, at, fault))
    ensures Inv(Do(s, Claim(w, until, at, fault)))
  {
    ClaimStep(s, w, until, at, fault);
  }

  lemma SendingKeeps(s: State, w: Token, result: SendResult)
    requires Inv(s) && Enabled(s, Send(w, result))
    ensures Inv(Do(s, Send(w, result)))
  {
    SendStep(s, w, result);
  }

  lemma ApplyingKeeps(s: State, w: Token, completedAt: Time, jittered: Duration, fault: Fault)
    requires Inv(s) && Enabled(s, Apply(w, completedAt, jittered, fault))
    ensures Inv(Do(s, Apply(w, completedAt, jittered, fault)))
  {
    ApplyStep(s, w, completedAt, jittered, fault);
  }

  lemma ReceivingKeeps(s: State, tag: Tag, w: Token)
    requires Inv(s) && Enabled(s, Receive(tag, w))
    ensures Inv(Do(s, Receive(tag, w)))
  {
    ReceiveStep(s, tag, w);
  }

  lemma OtherStepKeeps(s: State, step: Step)
    requires Inv(s) && Enabled(s, step) && !HandleStep(step) && !BrokerStep(step)
    ensures Inv(Do(s, step))
  {
    match step
    case Create(id, request, event) => CreateStep(s, id, request, event);
    case ClaimOutbox(p, events, now, until, fault) => ClaimOutboxStep(s, p, events, now, until, fault);
    case Publish(p, tag, arrives, confirmed) => PublishStep(s, p, tag, arrives, confirmed);
    case MarkPublished(p, at, fault) => MarkPublishedStep(s, p, at, fault);
    case StopPublisher(p) => StopPublisherStep(s, p);
    case ScheduleDue(now, rows) => ScheduleStep(s, now, rows);
    case Replay(id, now, event) => ReplayStep(s, id, now, event);
    case DeleteTerminal(cutoff, doomed) => DeleteStep(s, cutoff, doomed);
  }

  // Every step keeps the invariant.
  lemma StepKeeps(s: State, step: Step)
    requires Inv(s) && Enabled(s, step)
    ensures Inv(Do(s, step))
  {
    if step.Claim? {
      ClaimingKeeps(s, step.worker, step.until, step.at, step.fault);
    } else if step.Admit? {
      AdmitStep(s, step.worker, step.admitted);
    } else if step.Send? {
      SendingKeeps(s, step.worker, step.result);
    } else if step.Apply? {
      ApplyingKeeps(s, step.worker, step.completedAt, step.jittered, step.fault);
    } else if step.Receive? {
      ReceivingKeeps(s, step.tag, step.worker);
    } else if step.Redeliver? {
      RedeliverStep(s, step.tag);
    } else if step.Dispose? {
      DisposeStep(s, step.worker);
    } else if step.CrashWorker? {
      ReleaseKeeps(s, step.worker);
    } else {
      OtherStepKeeps(s, step);
    }
  }

  lemma {:induction false} RunKeeps(s: State, steps: seq<Step>, t: State)
    requires Inv(s) && Runs(s, steps, t)
    ensures Inv(t)
    decreases |steps|
  {
    if steps == [] {
    } else {
      StepKeeps(s, steps[0]);
      RunKeeps(Do(s, steps[0]), steps[1..], t);
    }
  }

  lemma ReachableHolds(s: State)
    requires Reachable(s)
    ensures Inv(s)
  {
    var steps :| Runs(Init(), steps, s);
    InitHolds();
    RunKeeps(Init(), steps, s);
  }
}
