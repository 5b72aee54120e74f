/** Which sequences of transactions the participants can produce. The tables say what is allowed;
    who may issue it depends on fresh identifiers, on the messages about, and on how far each
    session has got. All of that can be read off the transactions themselves, and it is exactly
    what separates the interleavings of lock-taking transactions that are runs of the protocol. */
module Orderly {
  import opened Wrappers
  import opened Notification
  import opened Rows
  import opened Tables
  import opened Protocol
  import opened Invariant
  import opened Ledgers
  import opened Atomicity
  import Sequences
  import Programs
  import Progress
  import Locks = RowLocks

  // ---------- who may issue what, by what has been committed ----------

  datatype Session = Session(task: TaskId, progress: Protocol.Progress)

  // The names drawn so far, the tasks that a message has been sent for, and how far each session
  // is known to have got.
  datatype Crew = Crew(
    ids: set<TaskId>, drawn: set<EventId>, leases: set<Token>, claims: set<Token>, carried: set<TaskId>,
    sessions: map<Token, Session>, publishers: map<Token, Publisher>)

  ghost function CrewOf(s: State): Crew {
    Crew(s.ledgers.Keys, DrawnIn(s.born), s.leases, s.claims, set tag | tag in s.copies :: s.copies[tag].message.task,
         map w | w in s.workers :: Session(s.workers[w].message.task, s.workers[w].progress), s.publishers)
  }

  ghost function DrawnIn(born: map<EventId, Slot>): set<EventId> {
    set e | e in born && e.Drawn?
  }

  // The session has the event before it, and is about to hand it over or to mark it.
  ghost predicate Turn(session: Publisher, event: EventId) {
    session.next < |session.batch| && session.batch[session.next].event == event
  }

  // A message for the task has been sent, or some publisher is about to send one.
  ghost predicate Carries(c: Crew, id: TaskId) {
    || id in c.carried
    || exists p | p in c.publishers :: Sends(c.publishers[p], id)
  }

  ghost predicate Sends(session: Publisher, id: TaskId) {
    !session.confirmed && session.next < |session.batch| && session.batch[session.next].task == id
  }

  ghost predicate LedBy(t: Task, answer: SendResult, jittered: Duration, result: AttemptResult) {
    result == Decide(t.request.policy, t.attempts, answer, result.completedAt, Some((d: Duration) => jittered))
  }

  // Some answer the session has, or may still get, leads to the result.
  ghost predicate MayEnd(progress: Protocol.Progress, result: AttemptResult) {
    match progress
    case Claimed(t) => exists answer, jittered | SenderMayReturn(answer) :: LedBy(t, answer, jittered, result)
    case Admitted(t) => exists answer, jittered | SenderMayReturn(answer) :: LedBy(t, answer, jittered, result)
    case Answer(t, answer) => exists jittered :: LedBy(t, answer, jittered, result)
    case _ => false
  }

  ghost predicate Receives(c: Crew, w: Token, id: TaskId) {
    w in c.sessions && c.sessions[w] == Session(id, Received)
  }

  // There is somebody to issue the action: identifiers and tokens are new, a claim follows a
  // message for its task, a result follows its own claim and is decided from the row that claim
  // returned, and marks follow the order of their batch.
  ghost predicate MayCome(c: Crew, a: Locks.Atomic) {
    match a
    case ScheduleDue(now, rows) => true
    case Replay(id, now, event) => event !in c.drawn
    case ClaimEvents(events, now, token, until) => token !in c.claims
    case Create(id, request, event) => id !in c.ids && event !in c.drawn && request.Admissible()
    case Statement(op) =>
      match op
      case Claim(id, token, until, at) => Receives(c, token, id) || (token !in c.leases && Carries(c, id))
      case Apply(id, token, result) =>
        token in c.sessions && c.sessions[token].task == id && MayEnd(c.sessions[token].progress, result)
      case DeleteTerminal(cutoff, doomed) => true
      case Mark(event, token, at) => token in c.publishers && Turn(c.publishers[token], event)
  }

  ghost function BatchOf(db: DB, events: seq<EventId>): seq<Message>
    requires forall e | e in events :: e in db.events
  {
    seq(|events|, i requires 0 <= i < |events| =>
      assert events[i] in events; Message(events[i], db.events[events[i]].aggregate))
  }

  ghost function ClaimedBy(db: DB, id: TaskId, token: Token, until: Time, at: Time): Protocol.Progress {
    if id in db.tasks && db.tasks[id].status == Pending
    then Claimed(ClaimRow(db.tasks[id], token, until, at)) else Done(Ack)
  }

  ghost function Passed(session: Publisher): Publisher {
    Publisher(session.batch, session.next + 1, false, session.published)
  }

  // What is known once the action has been committed.
  ghost function After(c: Crew, db: DB, a: Locks.Atomic): Crew
    requires Locks.AtomicAllowed(db, a) && MayCome(c, a)
  {
    match a
    case ScheduleDue(now, rows) => c
    case Replay(id, now, event) =>
      if id in db.tasks && db.tasks[id].status == Dead then c.(drawn := c.drawn + {event}) else c
    case ClaimEvents(events, now, token, until) =>
      c.(claims := c.claims + {token}, publishers := c.publishers[token := Publisher(BatchOf(db, events), 0, false, 0)])
    case Create(id, request, event) =>
      if KeyTaken(db, request) then c else c.(ids := c.ids + {id}, drawn := c.drawn + {event})
    case Statement(op) =>
      match op
      case Claim(id, token, until, at) =>
        c.(leases := c.leases + {token},
           sessions := c.sessions[token := Session(id, ClaimedBy(db, id, token, until, at))])
      case Apply(id, token, result) => c.(sessions := c.sessions - {token})
      case DeleteTerminal(cutoff, doomed) => c
      case Mark(event, token, at) =>
        var session := c.publishers[token];
        c.(carried := c.carried + if session.confirmed then {} else {session.batch[session.next].task},
           publishers := c.publishers[token := Passed(session)])
  }

  // Each action comes when there is somebody to issue it.
  ghost predicate Orderly(c: Crew, db: DB, actions: seq<Locks.Atomic>, db': DB)
    requires Locks.AtomicRuns(db, actions, db')
    decreases |actions|
  {
    actions != [] ==>
      && MayCome(c, actions[0])
      && Orderly(After(c, db, actions[0]), Locks.AtomicExec(db, actions[0]), actions[1..], db')
  }

  // ---------- a state and what is known of it ----------

  ghost predicate HasMessage(copies: map<Tag, Copy>, id: TaskId) {
    exists tag | tag in copies :: copies[tag].message.task == id
  }

  ghost predicate SameNames(s: State, c: Crew) {
    c.ids == s.ledgers.Keys && c.drawn == DrawnIn(s.born) && c.claims == s.claims
  }

  ghost predicate SamePlace(a: Publisher, b: Publisher) {
    a.batch == b.batch && a.next == b.next
  }

  // Whatever the crew may do, the sessions of s can do, perhaps after further steps of their own.

  ghost predicate CanPublish(publishers: map<Token, Publisher>, copies: map<Tag, Copy>, p: Token, session: Publisher) {
    session.next < |session.batch| ==>
      && p in publishers && SamePlace(publishers[p], session)
      && (session.confirmed ==> publishers[p].confirmed)
      && (publishers[p].confirmed && !session.confirmed ==> HasMessage(copies, session.batch[session.next].task))
  }

  ghost predicate CanWork(workers: map<Token, Worker>, w: Token, session: Session) {
    session.progress.Done? ||
    (w in workers && workers[w].message.task == session.task
     && match session.progress
        case Claimed(t) => workers[w].progress == Claimed(t) || workers[w].progress == Admitted(t)
        case Admitted(t) => workers[w].progress == Claimed(t) || workers[w].progress == Admitted(t)
        case _ => workers[w].progress == session.progress)
  }

  ghost predicate Able(s: State, c: Crew) {
    && SameNames(s, c) && s.leases <= c.leases
    && (forall id | id in c.carried :: HasMessage(s.copies, id))
    && (forall p | p in c.publishers :: CanPublish(s.publishers, s.copies, p, c.publishers[p]))
    && (forall w | w in c.sessions :: CanWork(s.workers, w, c.sessions[w]))
  }

  // And whatever the sessions of s can do, the crew may do.

  ghost predicate Allows(c: Crew, w: Token, task: TaskId, progress: Protocol.Progress) {
    match progress
    case Received => Receives(c, w, task) || (w !in c.leases && Carries(c, task))
    case Claimed(t) => HasClaimed(c, w, task, t)
    case Admitted(t) => HasClaimed(c, w, task, t)
    case Answer(t, answer) =>
      || (w in c.sessions && c.sessions[w] == Session(task, progress))
      || (HasClaimed(c, w, task, t) && SenderMayReturn(answer))
    case Done(_) => true
  }

  ghost predicate HasClaimed(c: Crew, w: Token, task: TaskId, t: Task) {
    w in c.sessions && (c.sessions[w] == Session(task, Claimed(t)) || c.sessions[w] == Session(task, Admitted(t)))
  }

  ghost predicate Within(s: State, c: Crew) {
    && SameNames(s, c) && c.leases <= s.leases && s.workers.Keys <= s.leases && c.publishers.Keys <= c.claims
    && (forall tag | tag in s.copies :: Carries(c, s.copies[tag].message.task))
    && (forall p | p in s.publishers ::
          p in c.publishers && SamePlace(s.publishers[p], c.publishers[p])
          && (c.publishers[p].confirmed ==> s.publishers[p].confirmed))
    && (forall w | w in s.workers :: Allows(c, w, s.workers[w].message.task, s.workers[w].progress))
  }

  lemma CrewFits(s: State)
    requires Reachable(s)
    ensures Able(s, CrewOf(s)) && Within(s, CrewOf(s))
  {
    ReachableHolds(s);
    KnownSessions(s);
    CrewIsAble(s);
    CrewAllows(s);
  }

  lemma CrewIsAble(s: State)
    ensures Able(s, CrewOf(s))
  {}

  lemma CrewAllows(s: State)
    requires s.workers.Keys <= s.leases && s.publishers.Keys <= s.claims
    ensures Within(s, CrewOf(s))
  {}

  lemma KnownSessions(s: State)
    requires Inv(s)
    ensures s.workers.Keys <= s.leases && s.publishers.Keys <= s.claims
  {}

  // ---------- a step of the protocol is orderly ----------

  lemma ScheduleNames(s: State, c: Crew, rows: seq<TaskId>, now: Time)
    requires SameNames(s, c)
    ensures SameNames(DoSchedule(s, rows, now), c)
  {
    ScheduleOnly(s, rows, now);
  }

  // The names after a create or a replay.
  lemma CreateNames(s: State, c: Crew, id: TaskId, request: Request, event: EventId)
    requires SameNames(s, c) && event.Drawn?
    ensures SameNames(DoCreate(s, id, request, event),
      if KeyTaken(s.db, request) then c else c.(ids := c.ids + {id}, drawn := c.drawn + {event}))
  {
    if !KeyTaken(s.db, request) {
      var row := WithRow(s, id, NewTask(request), NewLedger(request));
      BirthNames(row, event, id, 0, request.createdAt);
      assert row.born == s.born;
    }
  }

  lemma BirthNames(s: State, event: EventId, id: TaskId, g: nat, at: Time)
    requires event.Drawn?
    ensures DrawnIn(WithBirth(s, event, id, g, at).born) == DrawnIn(s.born) + {event}
  {}

  lemma ReplayNames(s: State, c: Crew, id: TaskId, now: Time, event: EventId)
    requires SameNames(s, c) && event.Drawn? && s.db.tasks.Keys <= s.ledgers.Keys
    ensures SameNames(DoReplay(s, id, now, event),
      if id in s.db.tasks && s.db.tasks[id].status == Dead then c.(drawn := c.drawn + {event}) else c)
  {
    if id in s.db.tasks && s.db.tasks[id].status == Dead {
      var row := ReplayRow(s.db.tasks[id], now);
      BirthNames(WithRow(s, id, row, Replayed(s.ledgers[id])), event, id, row.generation, now);
    }
  }

  // A transaction that leaves broker and sessions alone.
  lemma QuietWithin(s: State, t: State, c: Crew, d: Crew)
    requires Within(s, c) && SameNames(t, d) && d == c.(ids := d.ids, drawn := d.drawn)
    requires t.leases == s.leases && t.copies == s.copies && t.workers == s.workers && t.publishers == s.publishers
    ensures Within(t, d)
  {
    StillCarries(c, d);
  }

  lemma TableWithin(s: State, step: Step, c: Crew)
    requires Enabled(s, step) && Within(s, c) && s.db.tasks.Keys <= s.ledgers.Keys
    requires step.Create? || step.ScheduleDue? || step.Replay? || step.DeleteTerminal?
    requires Locks.AtomicAllowed(s.db, Action(s, step).value)
    ensures Follows(s, step, c)
  {
    match step
    case Create(id, request, event) => CreateWithin(s, id, request, event, c);
    case ScheduleDue(now, rows) =>
      ScheduleNames(s, c, rows, now);
      ScheduleOnly(s, rows, now);
      QuietWithin(s, DoSchedule(s, rows, now), c, c);
    case Replay(id, now, event) => ReplayWithin(s, id, now, event, c);
    case DeleteTerminal(cutoff, doomed) => QuietWithin(s, Do(s, step), c, c);
  }

  lemma CreateWithin(s: State, id: TaskId, request: Request, event: EventId, c: Crew)
    requires Enabled(s, Step.Create(id, request, event)) && Within(s, c)
    requires Locks.AtomicAllowed(s.db, Locks.Atomic.Create(id, request, event))
    ensures var a := Locks.Atomic.Create(id, request, event);
      MayCome(c, a) && Within(DoCreate(s, id, request, event), After(c, s.db, a))
  {
    CreateNames(s, c, id, request, event);
    QuietWithin(s, DoCreate(s, id, request, event), c, After(c, s.db, Locks.Atomic.Create(id, request, event)));
  }

  lemma ReplayWithin(s: State, id: TaskId, now: Time, event: EventId, c: Crew)
    requires Enabled(s, Step.Replay(id, now, event)) && Within(s, c) && s.db.tasks.Keys <= s.ledgers.Keys
    requires Locks.AtomicAllowed(s.db, Locks.Atomic.Replay(id, now, event))
    ensures var a := Locks.Atomic.Replay(id, now, event);
      MayCome(c, a) && Within(DoReplay(s, id, now, event), After(c, s.db, a))
  {
    ReplayNames(s, c, id, now, event);
    QuietWithin(s, DoReplay(s, id, now, event), c, After(c, s.db, Locks.Atomic.Replay(id, now, event)));
  }

  lemma ClaimOutboxWithin(s: State, p: Token, events: seq<EventId>, now: Time, until: Time, fault: Fault, c: Crew)
    requires Enabled(s, Step.ClaimOutbox(p, events, now, until, fault)) && Within(s, c)
    ensures var a := Locks.Atomic.ClaimEvents(events, now, p, until);
      MayCome(c, a) && Within(DoClaimOutbox(s, p, events, until, fault), After(c, s.db, a))
  {
    var a, t := Locks.Atomic.ClaimEvents(events, now, p, until), DoClaimOutbox(s, p, events, until, fault);
    var d := After(c, s.db, a);
    assert fault == Answered ==> t.publishers[p].batch == BatchOf(s.db, events);
    StillCarries(c, d);
  }

  // No publisher is forgotten and no message is lost by it.
  ghost predicate Remembers(c: Crew, d: Crew) {
    && c.carried <= d.carried
    && forall p, id | p in c.publishers && Sends(c.publishers[p], id) ::
         id in d.carried || (p in d.publishers && d.publishers[p] == c.publishers[p])
  }

  lemma StillCarries(c: Crew, d: Crew)
    requires Remembers(c, d)
    ensures forall id | Carries(c, id) :: Carries(d, id)
  {}

  lemma PublishWithin(s: State, p: Token, tag: Tag, arrives: bool, confirmed: bool, c: Crew)
    requires Enabled(s, Publish(p, tag, arrives, confirmed)) && Within(s, c)
    ensures Within(DoPublish(s, p, tag, arrives, confirmed), c)
  {
    var session := s.publishers[p];
    assert Sends(c.publishers[p], session.batch[session.next].task);
  }

  lemma MarkWithin(s: State, p: Token, at: Time, fault: Fault, c: Crew)
    requires Enabled(s, Step.MarkPublished(p, at, fault)) && Within(s, c)
    ensures fault == Fault.Lost ==> Within(DoMarkPublished(s, p, at, fault), c)
    ensures fault != Fault.Lost ==>
      var a := Locks.Statement(Locks.Mark(s.publishers[p].batch[s.publishers[p].next].event, p, at));
      MayCome(c, a) && Within(DoMarkPublished(s, p, at, fault), After(c, s.db, a))
  {
    var a := Locks.Statement(Locks.Mark(s.publishers[p].batch[s.publishers[p].next].event, p, at));
    StillCarries(c, After(c, s.db, a));
  }

  lemma PublisherWithin(s: State, step: Step, c: Crew)
    requires Enabled(s, step) && Within(s, c)
    requires step.ClaimOutbox? || step.Publish? || step.MarkPublished? || step.StopPublisher?
    ensures Follows(s, step, c)
  {
    match step
    case ClaimOutbox(p, events, now, until, fault) => ClaimOutboxWithin(s, p, events, now, until, fault, c);
    case Publish(p, tag, arrives, confirmed) => PublishWithin(s, p, tag, arrives, confirmed, c);
    case MarkPublished(p, at, fault) => MarkWithin(s, p, at, fault, c);
    case StopPublisher(p) =>
  }

  lemma BrokerWithin(s: State, step: Step, c: Crew)
    requires Enabled(s, step) && Within(s, c) && BrokerStep(step)
    ensures Follows(s, step, c)
  {
    match step
    case Receive(tag, w) => ReceiveWithin(s, tag, w, c);
    case Redeliver(tag) => SettledWithin(s, Do(s, step), c);
    case Dispose(w) =>
      DisposedSession(s, w);
      SettledWithin(s, DoDispose(s, w), c);
    case CrashWorker(w) => SettledWithin(s, Do(s, step), c);
  }

  lemma ReceiveWithin(s: State, tag: Tag, w: Token, c: Crew)
    requires Enabled(s, Receive(tag, w)) && Within(s, c)
    ensures Within(DoReceive(s, tag, w), c)
  {}

  lemma DisposedSession(s: State, w: Token)
    requires w in s.workers && s.workers[w].progress.Done?
    ensures var t := DoDispose(s, w);
      && t == s.(workers := s.workers - {w}, copies := t.copies)
      && forall tag | tag in t.copies :: tag in s.copies && t.copies[tag].message == s.copies[tag].message
  {}

  // Sessions end, and copies move or go.
  lemma SettledWithin(s: State, t: State, c: Crew)
    requires Within(s, c) && t == s.(workers := t.workers, copies := t.copies)
    requires forall w | w in t.workers :: w in s.workers && t.workers[w] == s.workers[w]
    requires forall tag | tag in t.copies :: tag in s.copies && t.copies[tag].message == s.copies[tag].message
    ensures Within(t, c)
  {}

  // A step of a worker session does no more than advance it, as far as the crew is concerned.
  ghost predicate Advances(s: State, t: State, w: Token, progress: Protocol.Progress)
    requires w in s.workers
  {
    && t.ledgers.Keys == s.ledgers.Keys && t.born == s.born && t.claims == s.claims && t.leases == s.leases
    && t.copies == s.copies && t.publishers == s.publishers
    && t.workers == s.workers[w := s.workers[w].(progress := progress)]
  }

  lemma ClaimAdvances(s: State, w: Token, until: Time, at: Time, fault: Fault)
    requires w in s.workers
    ensures Advances(s, DoClaim(s, w, until, at, fault), w,
      if fault != Answered then Done(Requeue) else ClaimedBy(s.db, s.workers[w].message.task, w, until, at))
  {}

  lemma ApplyAdvances(s: State, w: Token, at: Time, jittered: Duration, fault: Fault)
    requires w in s.workers && s.workers[w].progress.Answer?
    ensures Advances(s, DoApply(s, w, at, jittered, fault), w, Done(if fault == Answered then Ack else Requeue))
  {}

  lemma SendAdvances(s: State, w: Token, result: SendResult)
    requires w in s.workers && s.workers[w].progress.Admitted?
    ensures Advances(s, DoSend(s, w, result), w, Answer(s.workers[w].progress.snapshot, result))
  {}

  // Nothing else than this session may change in the crew either.
  lemma AdvancedWithin(s: State, t: State, w: Token, progress: Protocol.Progress, c: Crew, d: Crew)
    requires Within(s, c) && w in s.workers && Advances(s, t, w, progress)
    requires d == c.(leases := d.leases, sessions := d.sessions) && d.leases <= c.leases + {w}
    requires d.sessions - {w} == c.sessions - {w}
    requires Allows(d, w, s.workers[w].message.task, progress)
    ensures Within(t, d)
  {
    StillCarries(c, d);
    forall v | v in s.workers && v != w ensures Allows(d, v, s.workers[v].message.task, s.workers[v].progress) {
      SessionKept(c, d, v, w);
    }
  }

  lemma SessionKept(c: Crew, d: Crew, v: Token, w: Token)
    requires v != w && d.sessions - {w} == c.sessions - {w}
    ensures v in d.sessions <==> v in c.sessions
    ensures v in c.sessions ==> d.sessions[v] == c.sessions[v]
  {
    assert v in c.sessions <==> v in c.sessions - {w};
    assert v in d.sessions <==> v in d.sessions - {w};
    if v in c.sessions {
      assert (d.sessions - {w})[v] == (c.sessions - {w})[v];
    }
  }

  lemma ClaimWithin(s: State, w: Token, until: Time, at: Time, fault: Fault, c: Crew)
    requires Enabled(s, Claim(w, until, at, fault)) && Within(s, c)
    ensures fault == Fault.Lost ==> Within(DoClaim(s, w, until, at, fault), c)
    ensures fault != Fault.Lost ==>
      var a := Locks.Statement(Locks.Claim(s.workers[w].message.task, w, until, at));
      MayCome(c, a) && Within(DoClaim(s, w, until, at, fault), After(c, s.db, a))
  {
    var a := Locks.Statement(Locks.Claim(s.workers[w].message.task, w, until, at));
    var t, progress := DoClaim(s, w, until, at, fault), DoClaim(s, w, until, at, fault).workers[w].progress;
    ClaimAdvances(s, w, until, at, fault);
    assert MayCome(c, a);
    var d := if fault == Fault.Lost then c else After(c, s.db, a);
    AdvancedWithin(s, t, w, progress, c, d);
  }

  lemma ApplyWithin(s: State, w: Token, at: Time, jittered: Duration, fault: Fault, c: Crew)
    requires Enabled(s, Apply(w, at, jittered, fault)) && Within(s, c)
    ensures fault == Fault.Lost ==> Within(DoApply(s, w, at, jittered, fault), c)
    ensures fault != Fault.Lost ==>
      var a := Locks.Statement(Locks.Apply(s.workers[w].message.task, w, Decision(s.workers[w], at, jittered)));
      MayCome(c, a) && Within(DoApply(s, w, at, jittered, fault), After(c, s.db, a))
  {
    ResultMayCome(s, w, at, jittered, c);
    var a := Locks.Statement(Locks.Apply(s.workers[w].message.task, w, Decision(s.workers[w], at, jittered)));
    ApplyAdvances(s, w, at, jittered, fault);
    var d := if fault == Fault.Lost then c else After(c, s.db, a);
    AdvancedWithin(s, DoApply(s, w, at, jittered, fault), w, Done(if fault == Answered then Ack else Requeue), c, d);
  }

  lemma ResultMayCome(s: State, w: Token, at: Time, jittered: Duration, c: Crew)
    requires w in s.workers && s.workers[w].progress.Answer?
    requires Allows(c, w, s.workers[w].message.task, s.workers[w].progress)
    ensures MayCome(c, Locks.Statement(Locks.Apply(s.workers[w].message.task, w, Decision(s.workers[w], at, jittered))))
  {
    var answer, result := s.workers[w].progress, Decision(s.workers[w], at, jittered);
    assert LedBy(answer.snapshot, answer.result, jittered, result);
  }

  lemma HandleWithin(s: State, step: Step, c: Crew)
    requires Enabled(s, step) && Within(s, c) && HandleStep(step)
    ensures Follows(s, step, c)
  {
    match step
    case Claim(w, until, at, fault) => ClaimWithin(s, w, until, at, fault, c);
    case Admit(w, admitted) => AdvancedWithin(s, Do(s, step), w, Do(s, step).workers[w].progress, c, c);
    case Send(w, result) =>
      SendAdvances(s, w, result);
      AdvancedWithin(s, DoSend(s, w, result), w, Answer(s.workers[w].progress.snapshot, result), c, c);
    case Apply(w, at, jittered, fault) => ApplyWithin(s, w, at, jittered, fault, c);
  }

  // The step's action, if it has one, may come, and the sessions stay within what is known then.
  ghost predicate Follows(s: State, step: Step, c: Crew)
    requires Enabled(s, step)
  {
    match Action(s, step)
    case None => Within(Do(s, step), c)
    case Some(a) => Locks.AtomicAllowed(s.db, a) && MayCome(c, a) && Within(Do(s, step), After(c, s.db, a))
  }

  lemma StepWithin(s: State, step: Step, c: Crew)
    requires Reachable(s) && Enabled(s, step) && Within(s, c)
    ensures Follows(s, step, c)
  {
    FreshIds(s);
    StepIsAction(s, step);
    if HandleStep(step) {
      HandleWithin(s, step, c);
    } else if BrokerStep(step) {
      BrokerWithin(s, step, c);
    } else if step.ClaimOutbox? || step.Publish? || step.MarkPublished? || step.StopPublisher? {
      PublisherWithin(s, step, c);
    } else {
      TableWithin(s, step, c);
    }
  }

  // What a run commits is orderly.
  lemma {:induction false} RunIsOrderly(s: State, steps: seq<Step>, t: State, c: Crew)
    requires Reachable(s) && Runs(s, steps, t) && Within(s, c)
    ensures Locks.AtomicRuns(s.db, Actions(s, steps, t), t.db) && Orderly(c, s.db, Actions(s, steps, t), t.db)
    decreases |steps|
  {
    RunIsActions(s, steps, t);
    if steps == [] {
    } else {
      var mid := Do(s, steps[0]);
      StepWithin(s, steps[0], c);
      StepIsAction(s, steps[0]);
      Programs.ReachableStep(s, steps[0]);
      var rest := Actions(mid, steps[1..], t);
      if Action(s, steps[0]).Some? {
        var a := Action(s, steps[0]).value;
        RunIsOrderly(mid, steps[1..], t, After(c, s.db, a));
        assert ([a] + rest)[1..] == rest;
      } else {
        RunIsOrderly(mid, steps[1..], t, c);
        assert [] + rest == rest;
      }
    }
  }

  // ---------- and what is orderly is a run ----------

  // A silent step or two, after which the crew is still as able.
  ghost predicate Prepares(s: State, c: Crew, steps: seq<Step>, t: State, d: Crew) {
    Silent(s, steps, t) && Able(s, c) && Able(t, d)
  }

  lemma PublishAble(s: State, c: Crew, p: Token, tag: Tag)
    requires Able(s, c) && Enabled(s, Publish(p, tag, true, true))
    ensures Able(DoPublish(s, p, tag, true, true), c)
    ensures HasMessage(DoPublish(s, p, tag, true, true).copies, s.publishers[p].batch[s.publishers[p].next].task)
  {
    var t, task := DoPublish(s, p, tag, true, true), s.publishers[p].batch[s.publishers[p].next].task;
    assert t.copies[tag].message.task == task;
    MoreMessages(s.copies, t.copies);
  }

  // Messages are only added.
  lemma MoreMessages(copies: map<Tag, Copy>, copies': map<Tag, Copy>)
    requires forall tag | tag in copies :: tag in copies' && copies'[tag].message == copies[tag].message
    ensures forall id | HasMessage(copies, id) :: HasMessage(copies', id)
  {
    forall id | HasMessage(copies, id) ensures HasMessage(copies', id) {
      var tag :| tag in copies && copies[tag].message.task == id;
      assert copies'[tag].message.task == id;
    }
  }

  // The publisher hands over the message before it, unless it has.
  lemma HandsOver(s: State, c: Crew, p: Token) returns (steps: seq<Step>, t: State)
    requires Able(s, c) && p in c.publishers && c.publishers[p].next < |c.publishers[p].batch|
    ensures Prepares(s, c, steps, t, c)
    ensures p in t.publishers && SamePlace(t.publishers[p], c.publishers[p]) && t.publishers[p].confirmed
    ensures !c.publishers[p].confirmed ==> HasMessage(t.copies, c.publishers[p].batch[c.publishers[p].next].task)
  {
    if s.publishers[p].confirmed {
      steps, t := [], s;
    } else {
      var tag := Progress.Fresh(s.copies.Keys);
      var publish := Publish(p, tag, true, true);
      PublishAble(s, c, p, tag);
      OneSilent(s, publish);
      steps, t := [publish], Do(s, publish);
    }
  }

  // A message the crew carries can be had.
  lemma MessageCanBeHad(s: State, c: Crew, id: TaskId) returns (steps: seq<Step>, t: State)
    requires Able(s, c) && Carries(c, id)
    ensures Prepares(s, c, steps, t, c) && HasMessage(t.copies, id)
  {
    if id in c.carried {
      steps, t := [], s;
    } else {
      var p :| p in c.publishers && Sends(c.publishers[p], id);
      steps, t := HandsOver(s, c, p);
    }
  }

  ghost function Receiving(c: Crew, w: Token, id: TaskId): Crew {
    c.(leases := c.leases + {w}, sessions := c.sessions[w := Session(id, Received)])
  }

  lemma ReceiveAble(s: State, c: Crew, tag: Tag, w: Token)
    requires Able(s, c) && Enabled(s, Receive(tag, w)) && w !in c.leases
    ensures Able(DoReceive(s, tag, w), Receiving(c, w, s.copies[tag].message.task))
  {
    MoreMessages(s.copies, DoReceive(s, tag, w).copies);
  }

  lemma RedeliverAble(s: State, c: Crew, tag: Tag)
    requires Able(s, c) && tag in s.copies
    ensures Able(s.(copies := s.copies[tag := s.copies[tag].(holder := None)]), c)
  {
    MoreMessages(s.copies, s.copies[tag := s.copies[tag].(holder := None)]);
  }

  lemma GetsMessage(s: State, c: Crew, tag: Tag, w: Token, id: TaskId) returns (steps: seq<Step>, t: State)
    requires Able(s, c) && w !in c.leases && tag in s.copies && s.copies[tag].message.task == id
    ensures Prepares(s, c, steps, t, Receiving(c, w, id))
  {
    RedeliverAble(s, c, tag);
    OneSilent(s, Redeliver(tag));
    var mid := Do(s, Redeliver(tag));
    ReceiveAble(mid, c, tag, w);
    OneSilent(mid, Receive(tag, w));
    t := Do(mid, Receive(tag, w));
    steps := [Redeliver(tag)] + [Receive(tag, w)];
    ActionsJoin(s, [Redeliver(tag)], mid, [Receive(tag, w)], t);
  }

  lemma PreparesJoin(s: State, c: Crew, first: seq<Step>, mid: State, second: seq<Step>, t: State, d: Crew)
    requires Prepares(s, c, first, mid, c) && Prepares(mid, c, second, t, d)
    ensures Prepares(s, c, first + second, t, d)
  {
    ActionsJoin(s, first, mid, second, t);
  }

  // A session that will claim has its message.
  lemma ClaimPrepared(s: State, c: Crew, id: TaskId, w: Token) returns (steps: seq<Step>, t: State, d: Crew)
    requires Able(s, c) && (Receives(c, w, id) || (w !in c.leases && Carries(c, id)))
    ensures Prepares(s, c, steps, t, d) && Receives(d, w, id)
    ensures d == if Receives(c, w, id) then c else Receiving(c, w, id)
  {
    if Receives(c, w, id) {
      steps, t, d := [], s, c;
    } else {
      var first, mid := MessageCanBeHad(s, c, id);
      var tag :| tag in mid.copies && mid.copies[tag].message.task == id;
      var second;
      second, t := GetsMessage(mid, c, tag, w, id);
      d := Receiving(c, w, id);
      PreparesJoin(s, c, first, mid, second, t, d);
      steps := first + second;
    }
  }

  // The session's turn to write back a result that the crew may come with.
  lemma ResultPrepared(s: State, c: Crew, id: TaskId, w: Token, result: AttemptResult)
    returns (steps: seq<Step>, t: State, d: Crew, jittered: Duration)
    requires Able(s, c) && MayCome(c, Locks.Statement(Locks.Apply(id, w, result)))
    ensures Prepares(s, c, steps, t, d) && d == c.(sessions := d.sessions) && d.sessions - {w} == c.sessions - {w}
    ensures w in t.workers && t.workers[w].message.task == id && t.workers[w].progress.Answer?
    ensures result == Decision(t.workers[w], result.completedAt, jittered)
    ensures MayCome(d, Locks.Statement(Locks.Apply(id, w, result)))
  {
    var session := c.sessions[w];
    if session.progress.Answer? {
      jittered :| LedBy(session.progress.snapshot, session.progress.result, jittered, result);
      steps, t, d := [], s, c;
    } else {
      var answer;
      answer, jittered :| SenderMayReturn(answer) && LedBy(session.progress.snapshot, answer, jittered, result);
      steps, t, d := Sending(s, c, w, session.progress.snapshot, answer);
    }
  }

  ghost function Answering(c: Crew, w: Token, answer: Protocol.Progress): Crew
    requires w in c.sessions
  {
    c.(sessions := c.sessions[w := Session(c.sessions[w].task, answer)])
  }

  lemma Sending(s: State, c: Crew, w: Token, t: Task, answer: SendResult)
    returns (steps: seq<Step>, next: State, d: Crew)
    requires Able(s, c) && w in c.sessions && SenderMayReturn(answer)
    requires c.sessions[w].progress == Claimed(t) || c.sessions[w].progress == Admitted(t)
    ensures d == Answering(c, w, Answer(t, answer)) && Prepares(s, c, steps, next, d)
    ensures w in next.workers && next.workers[w].message.task == c.sessions[w].task
    ensures next.workers[w].progress == Answer(t, answer)
  {
    var first, mid := Admitting(s, c, w, t);
    next, d := DoSend(mid, w, answer), Answering(c, w, Answer(t, answer));
    OneSilent(mid, Send(w, answer));
    SendAdvances(mid, w, answer);
    AdvancedAble(mid, next, w, Answer(t, answer), c, d);
    PreparesJoin(s, c, first, mid, [Send(w, answer)], next, d);
    steps := first + [Send(w, answer)];
  }

  lemma Admitting(s: State, c: Crew, w: Token, t: Task) returns (steps: seq<Step>, mid: State)
    requires Able(s, c) && w in c.sessions
    requires c.sessions[w].progress == Claimed(t) || c.sessions[w].progress == Admitted(t)
    ensures Prepares(s, c, steps, mid, c)
    ensures w in mid.workers && mid.workers[w].message.task == c.sessions[w].task
    ensures mid.workers[w].progress == Admitted(t)
  {
    if s.workers[w].progress.Admitted? {
      steps, mid := [], s;
    } else {
      OneSilent(s, Admit(w, true));
      steps, mid := [Admit(w, true)], Do(s, Admit(w, true));
      AdvancedAble(s, mid, w, Admitted(t), c, c);
    }
  }

  lemma AdvancedAble(s: State, t: State, w: Token, progress: Protocol.Progress, c: Crew, d: Crew)
    requires Able(s, c) && w in s.workers && Advances(s, t, w, progress)
    requires d == c.(leases := d.leases, sessions := d.sessions) && c.leases <= d.leases
    requires d.sessions - {w} == c.sessions - {w}
    requires w in d.sessions ==> CanWork(t.workers, w, d.sessions[w])
    ensures Able(t, d)
  {
    forall v | v in d.sessions && v != w ensures CanWork(t.workers, v, d.sessions[v]) {
      SessionKept(c, d, v, w);
      assert CanWork(s.workers, v, c.sessions[v]);
    }
  }

  lemma QuietAble(s: State, t: State, c: Crew, d: Crew)
    requires Able(s, c) && SameNames(t, d) && d == c.(ids := d.ids, drawn := d.drawn)
    requires t.leases == s.leases && t.copies == s.copies && t.workers == s.workers && t.publishers == s.publishers
    ensures Able(t, d)
  {}

  // The step with which the action is committed, by a crew that is ready for it.
  ghost predicate Commits(s: State, c: Crew, step: Step, a: Locks.Atomic)
  {
    && Enabled(s, step) && Action(s, step) == Some(a) && Locks.AtomicAllowed(s.db, a) && MayCome(c, a)
    && Able(Do(s, step), After(c, s.db, a))
  }

  lemma CreateCommits(s: State, c: Crew, id: TaskId, request: Request, event: EventId)
    requires Able(s, c) && Enabled(s, Step.Create(id, request, event))
    requires var a := Locks.Atomic.Create(id, request, event); Locks.AtomicAllowed(s.db, a) && MayCome(c, a)
    ensures Commits(s, c, Step.Create(id, request, event), Locks.Atomic.Create(id, request, event))
  {
    CreateNames(s, c, id, request, event);
    QuietAble(s, DoCreate(s, id, request, event), c, After(c, s.db, Locks.Atomic.Create(id, request, event)));
  }

  lemma ReplayCommits(s: State, c: Crew, id: TaskId, now: Time, event: EventId)
    requires Able(s, c) && Enabled(s, Step.Replay(id, now, event)) && s.db.tasks.Keys <= s.ledgers.Keys
    requires var a := Locks.Atomic.Replay(id, now, event); Locks.AtomicAllowed(s.db, a) && MayCome(c, a)
    ensures Commits(s, c, Step.Replay(id, now, event), Locks.Atomic.Replay(id, now, event))
  {
    var t, d := DoReplay(s, id, now, event), After(c, s.db, Locks.Atomic.Replay(id, now, event));
    ReplayNames(s, c, id, now, event);
    ReplayAlone(s, id, now, event);
    QuietAble(s, t, c, d);
  }

  lemma ReplayAlone(s: State, id: TaskId, now: Time, event: EventId)
    ensures var t := DoReplay(s, id, now, event);
      t.leases == s.leases && t.copies == s.copies && t.workers == s.workers && t.publishers == s.publishers
  {}

  lemma PassCommits(s: State, c: Crew, now: Time, rows: seq<TaskId>)
    requires Able(s, c) && DueRows(s.db, rows, now)
    ensures Commits(s, c, Step.ScheduleDue(now, rows), Locks.Atomic.ScheduleDue(now, rows))
  {
    ScheduleNames(s, c, rows, now);
    ScheduleOnly(s, rows, now);
    QuietAble(s, DoSchedule(s, rows, now), c, c);
  }

  lemma EventsCommit(s: State, c: Crew, p: Token, events: seq<EventId>, now: Time, until: Time)
    requires Able(s, c) && p !in c.claims && ClaimableRows(s.db, events, now)
    ensures Commits(s, c, Step.ClaimOutbox(p, events, now, until, Answered),
                    Locks.Atomic.ClaimEvents(events, now, p, until))
  {
    var t := DoClaimOutbox(s, p, events, until, Answered);
    assert t.publishers[p].batch == BatchOf(s.db, events);
  }

  lemma MarkCommits(s: State, c: Crew, p: Token, event: EventId, at: Time)
    requires Able(s, c) && p in c.publishers && Turn(c.publishers[p], event)
    requires p in s.publishers && SamePlace(s.publishers[p], c.publishers[p]) && s.publishers[p].confirmed
    requires !c.publishers[p].confirmed ==> HasMessage(s.copies, c.publishers[p].batch[c.publishers[p].next].task)
    ensures Commits(s, c, Step.MarkPublished(p, at, Answered), Locks.Statement(Locks.Mark(event, p, at)))
  {}

  lemma ClaimCommits(s: State, c: Crew, id: TaskId, w: Token, until: Time, at: Time)
    requires Able(s, c) && Receives(c, w, id)
    ensures Commits(s, c, Claim(w, until, at, Answered), Locks.Statement(Locks.Claim(id, w, until, at)))
  {
    var a := Locks.Statement(Locks.Claim(id, w, until, at));
    ClaimAdvances(s, w, until, at, Answered);
    AdvancedAble(s, DoClaim(s, w, until, at, Answered), w, ClaimedBy(s.db, id, w, until, at), c, After(c, s.db, a));
  }

  lemma ResultCommits(s: State, c: Crew, id: TaskId, w: Token, result: AttemptResult, jittered: Duration)
    requires Able(s, c) && MayCome(c, Locks.Statement(Locks.Apply(id, w, result)))
    requires w in s.workers && s.workers[w].message.task == id && s.workers[w].progress.Answer?
    requires result == Decision(s.workers[w], result.completedAt, jittered)
    ensures Commits(s, c, Apply(w, result.completedAt, jittered, Answered), Locks.Statement(Locks.Apply(id, w, result)))
  {
    var a := Locks.Statement(Locks.Apply(id, w, result));
    ApplyAdvances(s, w, result.completedAt, jittered, Answered);
    AdvancedAble(s, DoApply(s, w, result.completedAt, jittered, Answered), w, Done(Ack), c, After(c, s.db, a));
  }

  // Steps that commit just this action and leave the crew as it should be.
  ghost predicate Issues(s: State, c: Crew, steps: seq<Step>, next: State, a: Locks.Atomic)
    requires Locks.AtomicAllowed(s.db, a) && MayCome(c, a)
  {
    && Runs(s, steps, next) && Actions(s, steps, next) == [a]
    && Reachable(next) && next.db == Locks.AtomicExec(s.db, a) && Able(next, After(c, s.db, a))
  }

  lemma PreparedIssues(s: State, c: Crew, prelude: seq<Step>, mid: State, d: Crew, step: Step, a: Locks.Atomic)
    returns (steps: seq<Step>, next: State)
    requires Reachable(s) && Locks.AtomicAllowed(s.db, a) && MayCome(c, a)
    requires Prepares(s, c, prelude, mid, d) && Commits(mid, d, step, a) && After(d, mid.db, a) == After(c, s.db, a)
    ensures Issues(s, c, steps, next, a)
  {
    next := Do(mid, step);
    ReachableRun(s, prelude, mid);
    StepIsAction(mid, step);
    Programs.ReachableStep(mid, step);
    Progress.OneStep(mid, step);
    assert Actions(mid, [step], next) == [a] by {
      assert [step][1..] == [];
    }
    ActionsJoin(s, prelude, mid, [step], next);
    steps := prelude + [step];
  }

  lemma ClaimIssues(s: State, c: Crew, id: TaskId, w: Token, until: Time, at: Time)
    returns (steps: seq<Step>, next: State)
    requires Reachable(s) && Able(s, c) && MayCome(c, Locks.Statement(Locks.Claim(id, w, until, at)))
    ensures Issues(s, c, steps, next, Locks.Statement(Locks.Claim(id, w, until, at)))
  {
    var a := Locks.Statement(Locks.Claim(id, w, until, at));
    var prelude, mid, d := ClaimPrepared(s, c, id, w);
    ClaimCommits(mid, d, id, w, until, at);
    ReceivedOrNot(c, d, s.db, id, w, until, at);
    steps, next := PreparedIssues(s, c, prelude, mid, d, Claim(w, until, at, Answered), a);
  }

  // It does not matter to what follows a claim when its message was received.
  lemma ReceivedOrNot(c: Crew, d: Crew, db: DB, id: TaskId, w: Token, until: Time, at: Time)
    requires d == (if Receives(c, w, id) then c else Receiving(c, w, id))
    requires Receives(d, w, id) && (Receives(c, w, id) || (w !in c.leases && Carries(c, id)))
    ensures var a := Locks.Statement(Locks.Claim(id, w, until, at)); After(d, db, a) == After(c, db, a)
  {}

  lemma ResultIssues(s: State, c: Crew, id: TaskId, w: Token, result: AttemptResult)
    returns (steps: seq<Step>, next: State)
    requires Reachable(s) && Able(s, c) && MayCome(c, Locks.Statement(Locks.Apply(id, w, result)))
    ensures Issues(s, c, steps, next, Locks.Statement(Locks.Apply(id, w, result)))
  {
    var a := Locks.Statement(Locks.Apply(id, w, result));
    var prelude, mid, d, jittered := ResultPrepared(s, c, id, w, result);
    ResultCommits(mid, d, id, w, result, jittered);
    assert After(d, mid.db, a) == After(c, s.db, a);
    steps, next := PreparedIssues(s, c, prelude, mid, d, Apply(w, result.completedAt, jittered, Answered), a);
  }

  lemma MarkIssues(s: State, c: Crew, event: EventId, p: Token, at: Time) returns (steps: seq<Step>, next: State)
    requires Reachable(s) && Able(s, c) && MayCome(c, Locks.Statement(Locks.Mark(event, p, at)))
    ensures Issues(s, c, steps, next, Locks.Statement(Locks.Mark(event, p, at)))
  {
    var prelude, mid := HandsOver(s, c, p);
    MarkCommits(mid, c, p, event, at);
    steps, next := PreparedIssues(s, c, prelude, mid, c, Step.MarkPublished(p, at, Answered),
                                  Locks.Statement(Locks.Mark(event, p, at)));
  }

  lemma DirectIssues(s: State, c: Crew, a: Locks.Atomic) returns (steps: seq<Step>, next: State)
    requires Reachable(s) && Able(s, c) && Locks.AtomicAllowed(s.db, a) && MayCome(c, a)
    requires a.Statement? ==> a.op.DeleteTerminal?
    ensures Issues(s, c, steps, next, a)
  {
    FreshIds(s);
    var step := DirectStep(s, c, a);
    steps, next := PreparedIssues(s, c, [], s, c, step, a);
  }

  lemma DirectStep(s: State, c: Crew, a: Locks.Atomic) returns (step: Step)
    requires Able(s, c) && s.db.tasks.Keys <= s.ledgers.Keys && Locks.AtomicAllowed(s.db, a) && MayCome(c, a)
    requires a.Statement? ==> a.op.DeleteTerminal?
    ensures Commits(s, c, step, a)
  {
    match a
    case ScheduleDue(now, rows) =>
      step := Step.ScheduleDue(now, rows);
      PassCommits(s, c, now, rows);
    case Replay(id, now, event) =>
      step := Step.Replay(id, now, event);
      ReplayCommits(s, c, id, now, event);
    case ClaimEvents(events, now, token, until) =>
      step := Step.ClaimOutbox(token, events, now, until, Answered);
      EventsCommit(s, c, token, events, now, until);
    case Create(id, request, event) =>
      step := Step.Create(id, request, event);
      CreateCommits(s, c, id, request, event);
    case Statement(op) =>
      step := Step.DeleteTerminal(op.cutoff, op.doomed);
      QuietAble(s, Do(s, step), c, c);
  }

  lemma IssueOne(s: State, c: Crew, a: Locks.Atomic) returns (steps: seq<Step>, next: State)
    requires Reachable(s) && Able(s, c) && Locks.AtomicAllowed(s.db, a) && MayCome(c, a)
    ensures Issues(s, c, steps, next, a)
  {
    if a.Statement? && a.op.Claim? {
      steps, next := ClaimIssues(s, c, a.op.id, a.op.token, a.op.until, a.op.at);
    } else if a.Statement? && a.op.Apply? {
      steps, next := ResultIssues(s, c, a.op.id, a.op.token, a.op.result);
    } else if a.Statement? && a.op.Mark? {
      steps, next := MarkIssues(s, c, a.op.event, a.op.token, a.op.at);
    } else {
      steps, next := DirectIssues(s, c, a);
    }
  }

  // What the tables allow and is orderly is what some run of the protocol commits.
  lemma {:induction false} OrderlyIsARun(s: State, c: Crew, actions: seq<Locks.Atomic>, db: DB)
    returns (steps: seq<Step>, t: State)
    requires Reachable(s) && Able(s, c) && Locks.AtomicRuns(s.db, actions, db) && Orderly(c, s.db, actions, db)
    ensures CommitsJust(s, steps, t, actions, db)
    decreases |actions|
  {
    if actions == [] {
      steps, t := [], s;
    } else {
      var first, next := IssueOne(s, c, actions[0]);
      var rest;
      rest, t := OrderlyIsARun(next, After(c, s.db, actions[0]), actions[1..], db);
      ActionsJoin(s, first, next, rest, t);
      steps := first + rest;
      Sequences.FirstAndRest(actions);
    }
  }

  // ---------- the exact correspondence ----------

  // A run of the protocol with just these effects that ends in these tables.
  ghost predicate CommitsJust(s: State, steps: seq<Step>, t: State, actions: seq<Locks.Atomic>, db: DB) {
    Runs(s, steps, t) && Actions(s, steps, t) == actions && t.db == db
  }

  // A sequence of transactions is what some run of the protocol commits if and only if the tables
  // allow it and it is orderly.
  lemma RunsAreOrderly(s: State, actions: seq<Locks.Atomic>, db: DB)
    requires Reachable(s)
    ensures (exists steps, t :: CommitsJust(s, steps, t, actions, db)) <==>
      Locks.AtomicRuns(s.db, actions, db) && Orderly(CrewOf(s), s.db, actions, db)
  {
    CrewFits(s);
    forall steps, t | CommitsJust(s, steps, t, actions, db)
      ensures Locks.AtomicRuns(s.db, actions, db) && Orderly(CrewOf(s), s.db, actions, db)
    {
      RunIsOrderly(s, steps, t, CrewOf(s));
    }
    if Locks.AtomicRuns(s.db, actions, db) && Orderly(CrewOf(s), s.db, actions, db) {
      var steps, t := OrderlyIsARun(s, CrewOf(s), actions, db);
    }
  }

  // Whatever transactions interleave, lock by lock, from a reachable state's tables: the protocol
  // has a run with exactly their effects, in commit order, that ends in the same tables, if and
  // only if the effects are orderly.
  lemma LocksMatchProtocol(s: State, locked: seq<Locks.Step>, u: Locks.State)
    requires Reachable(s) && Locks.Runs(Locks.State(s.db, map[]), locked, u)
    ensures var effects := Locks.Effects(Locks.State(s.db, map[]), locked, u);
      && Locks.AtomicRuns(s.db, effects, u.db)
      && ((exists steps, t :: CommitsJust(s, steps, t, effects, u.db)) <==> Orderly(CrewOf(s), s.db, effects, u.db))
  {
    FreshIds(s);
    Locks.EmptyHolds(s.db);
    Locks.LocksRefineAtomic(Locks.State(s.db, map[]), locked, u);
    RunsAreOrderly(s, Locks.Effects(Locks.State(s.db, map[]), locked, u), u.db);
  }

  // ---------- a scheduler's pass in the middle of a delivery ----------

  // A scheduler selects a due row, a worker claims another task, the scheduler updates and commits,
  // and the worker writes its result back.
  function AroundAPass(x: Locks.TxId, now: Time, other: TaskId, claim: Locks.Op, apply: Locks.Op): seq<Locks.Step> {
    [Locks.SelectDue(x, now, [other]), Locks.Single(claim), Locks.UpdateNext(x), Locks.Commit(x), Locks.Single(apply)]
  }

  // Whatever the task, the lease and the answer are, this is orderly, and so a run of the protocol.
  lemma PassDuringDelivery(
      s: State, x: Locks.TxId, now: Time, other: TaskId, id: TaskId, w: Token, until: Time, at: Time,
      answer: SendResult, jittered: Duration, completedAt: Time)
    requires Reachable(s) && other in s.db.tasks && Due(s.db.tasks[other], now)
    requires id in s.db.tasks && s.db.tasks[id].status == Pending && Carries(CrewOf(s), id)
    requires w !in s.leases && SenderMayReturn(answer)
    ensures var t := ClaimRow(s.db.tasks[id], w, until, at);
      var result := Decide(t.request.policy, t.attempts, answer, completedAt, Some((d: Duration) => jittered));
      var claim, apply := Locks.Claim(id, w, until, at), Locks.Apply(id, w, result);
      var effects := [Locks.Statement(claim), Locks.Atomic.ScheduleDue(now, [other]), Locks.Statement(apply)];
      exists u, steps, end ::
        && Locks.Runs(Locks.State(s.db, map[]), AroundAPass(x, now, other, claim, apply), u)
        && Locks.Effects(Locks.State(s.db, map[]), AroundAPass(x, now, other, claim, apply), u) == effects
        && CommitsJust(s, steps, end, effects, u.db)
  {
    var t := ClaimRow(s.db.tasks[id], w, until, at);
    var result := Decide(t.request.policy, t.attempts, answer, completedAt, Some((d: Duration) => jittered));
    var claim, apply := Locks.Claim(id, w, until, at), Locks.Apply(id, w, result);
    var u := LockedPass(s.db, x, now, other, claim, apply);
    var effects := [Locks.Statement(claim), Locks.Atomic.ScheduleDue(now, [other]), Locks.Statement(apply)];
    LocksMatchProtocol(s, AroundAPass(x, now, other, claim, apply), u);
    DeliveryIsOrderly(CrewOf(s), s.db, claim, now, other, apply, u.db, answer, jittered);
    var steps, end :| CommitsJust(s, steps, end, effects, u.db);
  }

  lemma LockedPass(db: DB, x: Locks.TxId, now: Time, other: TaskId, claim: Locks.Op, apply: Locks.Op)
    returns (u: Locks.State)
    requires other in db.tasks && Due(db.tasks[other], now) && claim.Claim? && apply.Apply? && claim.id != other
    ensures Locks.Runs(Locks.State(db, map[]), AroundAPass(x, now, other, claim, apply), u)
    ensures Locks.Effects(Locks.State(db, map[]), AroundAPass(x, now, other, claim, apply), u) ==
      [Locks.Statement(claim), Locks.Atomic.ScheduleDue(now, [other]), Locks.Statement(apply)]
  {
    var selected := Locks.State(db, map[x := Locks.HasSelected(other, db.tasks[other], now)]);
    Locks.SelectedOne(db, x, other, now);
    var claimed := Locks.State(Locks.Exec(db, claim), selected.open);
    assert Locks.Enabled(selected, Locks.Single(claim)) && Locks.Do(selected, Locks.Single(claim)) == claimed;
    u := PassEnds(claimed, x, db.tasks[other], now, other, apply);
    var steps := AroundAPass(x, now, other, claim, apply);
    assert steps[1..][1..] == [Locks.UpdateNext(x), Locks.Commit(x), Locks.Single(apply)];
    assert steps[1..][0] == Locks.Single(claim);
    assert Locks.Runs(selected, steps[1..], u);
  }

  lemma PassEnds(s: Locks.State, x: Locks.TxId, item: Task, now: Time, other: TaskId, apply: Locks.Op)
    returns (u: Locks.State)
    requires s.open == map[x := Locks.HasSelected(other, item, now)] && other in s.db.tasks && apply.Apply?
    ensures var rest := [Locks.UpdateNext(x), Locks.Commit(x), Locks.Single(apply)];
      Locks.Runs(s, rest, u)
      && Locks.Effects(s, rest, u) == [Locks.Atomic.ScheduleDue(now, [other]), Locks.Statement(apply)]
  {
    Locks.UpdatedOne(s, x, other, item, now);
    var updated := Locks.Do(s, Locks.UpdateNext(x));
    var committed := Locks.Do(updated, Locks.Commit(x));
    assert committed.open == map[];
    u := Locks.Do(committed, Locks.Single(apply));
    assert [Locks.Single(apply)][1..] == [];
    assert Locks.Runs(committed, [Locks.Single(apply)], u);
    assert Locks.Effects(committed, [Locks.Single(apply)], u) == [Locks.Statement(apply)];
    assert [Locks.Commit(x), Locks.Single(apply)][1..] == [Locks.Single(apply)];
    assert Locks.Runs(updated, [Locks.Commit(x), Locks.Single(apply)], u);
    assert Locks.ActionOf(updated.open[x]) == Locks.Atomic.ScheduleDue(now, [other]);
    assert [Locks.UpdateNext(x), Locks.Commit(x), Locks.Single(apply)][1..] == [Locks.Commit(x), Locks.Single(apply)];
  }

  lemma DeliveryIsOrderly(c: Crew, db: DB, claim: Locks.Op, now: Time, other: TaskId, apply: Locks.Op, db': DB,
                          answer: SendResult, jittered: Duration)
    requires claim.Claim? && apply.Apply? && apply.id == claim.id && apply.token == claim.token
    requires claim.id in db.tasks && db.tasks[claim.id].status == Pending
    requires claim.token !in c.leases && Carries(c, claim.id) && SenderMayReturn(answer)
    requires LedBy(ClaimRow(db.tasks[claim.id], claim.token, claim.until, claim.at), answer, jittered, apply.result)
    requires var effects := [Locks.Statement(claim), Locks.Atomic.ScheduleDue(now, [other]), Locks.Statement(apply)];
      Locks.AtomicRuns(db, effects, db')
    ensures var effects := [Locks.Statement(claim), Locks.Atomic.ScheduleDue(now, [other]), Locks.Statement(apply)];
      Orderly(c, db, effects, db')
  {
    var effects := [Locks.Statement(claim), Locks.Atomic.ScheduleDue(now, [other]), Locks.Statement(apply)];
    assert effects[1..] == [Locks.Atomic.ScheduleDue(now, [other]), Locks.Statement(apply)];
    assert effects[1..][1..] == [Locks.Statement(apply)] && [Locks.Statement(apply)][1..] == [];
    var claimed := After(c, db, effects[0]);
    assert MayCome(claimed, Locks.Statement(apply));
    var mid := Locks.AtomicExec(db, effects[0]);
    assert Orderly(claimed, mid, effects[1..], db') by {
      assert After(claimed, mid, effects[1..][0]) == claimed;
      assert Orderly(claimed, Locks.AtomicExec(mid, effects[1..][0]), [Locks.Statement(apply)], db');
    }
  }
}
