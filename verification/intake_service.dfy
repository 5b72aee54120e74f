/** intake.Service.Create over the shared world, and request identity: what a repeated key gets. */
module IntakeService {
  import opened Wrappers
  import opened Notification
  import opened Rows
  import opened Tables
  import opened Protocol
  import opened Invariant
  import opened Origins
  import opened Store
  import opened Programs
  import opened CanonicalJson

  datatype Reply =
    | UnknownDestination
    | InvalidPayload
    | Failed
    | Accepted(id: TaskId)
    | Replayed(id: TaskId)
    | Conflict

  // The part of a destination that ends up in the columns modelled.
  datatype Destination = Destination(policy: RetryPolicy, concurrencyLimit: int)

  // Destinations enter the registry through validation only.
  predicate Validated(d: Destination) {
    RetryArithmetic.ValidPolicy(d.policy) && 1 <= d.concurrencyLimit <= 1000
  }

  function NewRequest(caller: string, key: string, destination: string, d: Destination, payload: Doc, now: Time)
    : Request
  {
    Request(caller, key, RequestHash(destination, Some(payload)).value, destination, d.concurrencyLimit, d.policy, now)
  }

  // What the tables must have held for a request to be answered so.
  ghost predicate Justified(db: DB, request: Request, reply: Reply) {
    match reply
    case Accepted(id) => !KeyTaken(db, request)
    case Replayed(id) =>
      id in db.tasks && db.tasks[id].request.SameKey(request) && db.tasks[id].request.hash == request.hash
    case Conflict =>
      exists id | id in db.tasks :: db.tasks[id].request.SameKey(request) && db.tasks[id].request.hash != request.hash
    case _ => true
  }

  // The request's row and its event, as they are once it has been accepted.
  ghost predicate Stored(db: DB, id: TaskId, event: nat, caller: string, key: string, destination: string,
                         d: Destination, payload: Doc, now: Time) {
    && id in db.tasks && Drawn(event) in db.events
    && db.tasks[id].status == Pending && db.tasks[id].attempts == 0 && db.tasks[id].generation == 0
    && Made(db.tasks[id].request, caller, key, destination, payload)
    && db.tasks[id].request.policy == d.policy && db.tasks[id].request.concurrencyLimit == d.concurrencyLimit
    && db.tasks[id].request.createdAt == now
    && db.events[Drawn(event)] == Event(id, 0, now, None, None, None, 0)
  }

  // The columns of a request with this caller, key, destination and payload.
  ghost predicate Made(r: Request, caller: string, key: string, destination: string, payload: Doc) {
    && r.caller == caller && r.key == key && r.destination == destination
    && Some(r.hash) == RequestHash(destination, Some(payload))
  }

  // The tables entitle the request to its answer: accepted if nobody has its caller and key;
  // replayed with the id of the row that has them, if the hash of its destination and payload is
  // that row's; a conflict if it is not.
  ghost predicate Entitled(db: DB, caller: string, key: string, destination: string, payload: Doc, reply: Reply) {
    match reply
    case Accepted(_) =>
      forall id | id in db.tasks :: db.tasks[id].request.caller != caller || db.tasks[id].request.key != key
    case Replayed(id) =>
      && id in db.tasks && db.tasks[id].request.caller == caller && db.tasks[id].request.key == key
      && Some(db.tasks[id].request.hash) == RequestHash(destination, Some(payload))
    case Conflict =>
      exists id | id in db.tasks ::
        && db.tasks[id].request.caller == caller && db.tasks[id].request.key == key
        && Some(db.tasks[id].request.hash) != RequestHash(destination, Some(payload))
    case _ => true
  }

  // As long as a task is not deleted, every request with its caller and key is answered by it:
  // with its id if the hashes are equal, with a conflict if not. No second task can appear.
  lemma RepeatedKey(s: State, steps: seq<Step>, t: State, id: TaskId, request: Request, reply: Reply)
    requires Reachable(s) && Runs(s, steps, t) && id in s.db.tasks && id in t.db.tasks
    requires s.db.tasks[id].request.SameKey(request) && Justified(t.db, request, reply)
    ensures reply.Accepted? || reply.Replayed? || reply.Conflict? ==>
      reply == if request.hash == s.db.tasks[id].request.hash then Replayed(id) else Conflict
  {
    KeyKeepsItsTask(s, steps, t, id, request);
  }

  // In terms of the two requests: once one has been accepted, and as long as its task is not deleted,
  // another one with its caller and key gets its id exactly if destination and payload mean the
  // same, and otherwise a conflict.
  lemma RepeatedRequest(s: State, steps: seq<Step>, t: State, id: TaskId, caller: string, key: string, reply: Reply,
                        d: string, a: Doc, e: string, b: Doc)
    requires Reachable(s) && Runs(s, steps, t) && id in s.db.tasks && id in t.db.tasks
    requires Made(s.db.tasks[id].request, caller, key, d, a) && Entitled(t.db, caller, key, e, b, reply)
    requires Scanned(Decode(a)) && Scanned(Decode(b))
    ensures reply.Accepted? || reply.Replayed? || reply.Conflict? ==>
      reply == if d == e && Decode(a) == Decode(b) then Replayed(id) else Conflict
  {
    KeyKeepsItsTask(s, steps, t, id, s.db.tasks[id].request);
    SameHash(d, a, e, b);
  }

  // ---------- Create ----------

  // Drawn identifiers nobody else can draw stay unused.
  lemma {:induction false} IdsStayFresh(s: State, steps: seq<Step>, t: State, id: TaskId, event: nat)
    requires Runs(s, steps, t) && forall step | step in steps :: !Uses(step, id) && !Uses(step, event)
    requires id !in s.ledgers && Drawn(event) !in s.born
    ensures id !in t.ledgers && Drawn(event) !in t.born
    decreases |steps|
  {
    if steps == [] {
    } else {
      assert steps[0] in steps;
      IdsStepFresh(s, steps[0], id, event);
      IdsStayFresh(Do(s, steps[0]), steps[1..], t, id, event);
    }
  }

  lemma IdsStepFresh(s: State, step: Step, id: TaskId, event: nat)
    requires Enabled(s, step) && !Uses(step, id) && !Uses(step, event)
    requires id !in s.ledgers && Drawn(event) !in s.born
    ensures id !in Do(s, step).ledgers && Drawn(event) !in Do(s, step).born
  {
    match step
    case Create(i, request, drawn) => CreateDraws(s, i, request, drawn);
    case ScheduleDue(now, rows) => ScheduleOnly(s, rows, now);
    case Replay(i, now, drawn) => ReplayDraws(s, i, now, drawn);
    case _ => SessionsDrawNothing(s, step);
  }

  lemma CreateDraws(s: State, id: TaskId, request: Request, event: EventId)
    ensures var t := DoCreate(s, id, request, event);
      t.ledgers.Keys <= s.ledgers.Keys + {id} && t.born.Keys <= s.born.Keys + {event}
  {}

  lemma ReplayDraws(s: State, id: TaskId, now: Time, event: EventId)
    ensures var t := DoReplay(s, id, now, event);
      t.ledgers.Keys <= s.ledgers.Keys && t.born.Keys <= s.born.Keys + {event}
  {}

  lemma SessionsDrawNothing(s: State, step: Step)
    requires Enabled(s, step) && !step.Create? && !step.ScheduleDue? && !step.Replay?
    ensures Do(s, step).ledgers.Keys == s.ledgers.Keys && Do(s, step).born == s.born
  {
    if step.Claim? {
      ClaimDrawsNothing(s, step.worker, step.until, step.at, step.fault);
    } else if step.Apply? {
      ResultDrawsNothing(s, step.worker, step.completedAt, step.jittered, step.fault);
    }
  }

  lemma ClaimDrawsNothing(s: State, w: Token, until: Time, at: Time, fault: Fault)
    requires w in s.workers
    ensures var t := DoClaim(s, w, until, at, fault); t.ledgers.Keys == s.ledgers.Keys && t.born == s.born
  {}

  lemma ResultDrawsNothing(s: State, w: Token, at: Time, jittered: Duration, fault: Fault)
    requires w in s.workers && s.workers[w].progress.Answer?
    ensures var t := DoApply(s, w, at, jittered, fault); t.ledgers.Keys == s.ledgers.Keys && t.born == s.born
  {}

  lemma NoRowYet(s: State, id: TaskId)
    requires Reachable(s) && id !in s.ledgers
    ensures id !in s.db.tasks
  {
    ReachableHolds(s);
  }

  class Service {
    const world: World
    const registry: map<string, Destination>

    constructor (world: World, registry: map<string, Destination>)
      ensures this.world == world && this.registry == registry
    {
      this.world, this.registry := world, registry;
    }

    // Interference before the request's identifiers are first used.
    method Meanwhile(ghost id: TaskId, ghost event: nat) returns (ghost steps: seq<Step>)
      requires world.Valid() && id !in world.sys.ledgers && Drawn(event) !in world.sys.born
      modifies world, world.database
      ensures world.Valid() && Runs(old(world.sys), steps, world.sys)
      ensures id !in world.sys.ledgers && id !in world.sys.db.tasks && Drawn(event) !in world.sys.born
    {
      steps := world.Others(id, event);
      IdsStayFresh(old(world.sys), steps, world.sys, id, event);
      NoRowYet(world.sys, id);
    }

    // CreateOrGet. `decided` is the state its last statement met, after `before`.
    method CreateOrGet(id: TaskId, request: Request, event: nat, insertFails: bool, commit: Fault, readFails: bool)
      returns (reply: CreateReply, ghost before: seq<Step>, ghost decided: State)
      requires world.Valid() && id !in world.sys.ledgers && Drawn(event) !in world.sys.born && request.Admissible()
      modifies world, world.database
      ensures world.Valid() && Runs(old(world.sys), before, decided)
      ensures Enabled(decided, Step.Create(id, request, Drawn(event)))
      ensures reply == Created ==>
        world.sys == Do(decided, Step.Create(id, request, Drawn(event))) && !KeyTaken(decided.db, request)
      ensures reply.Existing? ==>
        && world.sys == decided && reply.id in decided.db.tasks
        && decided.db.tasks[reply.id].request == reply.request && reply.request.SameKey(request)
      ensures reply == Vanished ==> world.sys == decided && !KeyTaken(decided.db, request)
      ensures reply == CreateFailed ==>
        && (insertFails || commit != Answered || readFails)
        && (world.sys == decided || world.sys == Do(decided, Step.Create(id, request, Drawn(event))))
    {
      before := Meanwhile(id, event);
      decided := world.sys;
      var failed, conflict := world.database.InsertTaskAndEvent(id, request, Drawn(event), insertFails, commit);
      if !conflict {
        if !insertFails && commit != Lost {
          world.Took(Step.Create(id, request, Drawn(event)));
        }
        return if failed then CreateFailed else Created, before, decided;
      }
      ghost var more := Meanwhile(id, event);
      RunsJoin(old(world.sys), before, decided, more, world.sys);
      before, decided := before + more, world.sys;
      if readFails {
        return CreateFailed, before, decided;
      }
      var found := world.database.GetByCallerAndKey(request.caller, request.key);
      reply := if found.Some? then Existing(found.value, world.database.tasks[found.value].request) else Vanished;
    }

    // intake.Service.Create. `None` is a payload that does not parse as exactly one JSON text.
    method Create(caller: string, key: string, destination: string, payload: Option<Doc>, now: Time,
                  id: TaskId, event: nat, insertFails: bool, commit: Fault, readFails: bool)
      returns (reply: Reply, ghost before: seq<Step>, ghost decided: State)
      requires world.Valid() && id !in world.sys.ledgers && Drawn(event) !in world.sys.born
      requires forall d | d in registry :: Validated(registry[d])
      modifies world, world.database
      ensures world.Valid() && Runs(old(world.sys), before, decided)
      ensures reply == UnknownDestination <==> destination !in registry
      ensures reply == InvalidPayload <==> destination in registry && payload.None?
      ensures destination !in registry || payload.None? ==> world.sys == decided == old(world.sys)
      ensures destination in registry && payload.Some? ==>
        var request := NewRequest(caller, key, destination, registry[destination], payload.value, now);
        && Justified(decided.db, request, reply) && (reply.Accepted? ==> reply.id == id)
        && Entitled(decided.db, caller, key, destination, payload.value, reply)
        && (reply.Failed? && !insertFails && commit == Answered && !readFails ==>
              forall i | i in decided.db.tasks ::
                decided.db.tasks[i].request.caller != caller || decided.db.tasks[i].request.key != key)
        && (reply.Accepted? ==>
              Stored(world.sys.db, id, event, caller, key, destination, registry[destination], payload.value, now))
        && Enabled(decided, Step.Create(id, request, Drawn(event)))
        && (reply.Accepted? ==> world.sys == Do(decided, Step.Create(id, request, Drawn(event))))
        && (reply.Replayed? || reply.Conflict? ==> world.sys == decided)
        && (reply.Failed? ==> world.sys == decided || world.sys == Do(decided, Step.Create(id, request, Drawn(event))))
    {
      before, decided := [], world.sys;
      if destination !in registry {
        return UnknownDestination, before, decided;
      }
      if payload.None? {
        return InvalidPayload, before, decided;
      }
      var target := registry[destination];
      assert Validated(target);
      var request := NewRequest(caller, key, destination, target, payload.value, now);
      var existing;
      existing, before, decided := CreateOrGet(id, request, event, insertFails, commit, readFails);
      match existing {
        case CreateFailed => reply := Failed;
        case Vanished => reply := Failed;
        case Created => reply := Accepted(id);
        case Existing(other, found) => reply := if found.hash == request.hash then Replayed(other) else Conflict;
      }
    }
  }
}
