/** The shared database with any number of participants acting between one's own statements, and
    delivery.Service.Handle over it, proved to take protocol steps only. */
module Programs {
  import opened Wrappers
  import opened Notification
  import opened Rows
  import opened Tables
  import opened Protocol
  import opened Origins
  import opened Store
  import opened Sequences
  import opened Joint
  import Limiter
  import Progress
  import RetryArithmetic

  // ---------- who takes a step ----------

  predicate ByWorker(step: Step, w: Token) {
    match step
    case Receive(_, v) => v == w
    case Claim(v, _, _, _) => v == w
    case Admit(v, _) => v == w
    case Send(v, _) => v == w
    case Apply(v, _, _, _) => v == w
    case Dispose(v) => v == w
    case CrashWorker(v) => v == w
    case _ => false
  }

  predicate ByPublisher(step: Step, p: Token) {
    match step
    case ClaimOutbox(q, _, _, _, _) => q == p
    case Publish(q, _, _, _) => q == p
    case MarkPublished(q, _, _) => q == p
    case StopPublisher(q) => q == p
    case _ => false
  }

  // `newID` never draws a number twice: a step under a number is a step of the session, request
  // or replay that drew it.
  predicate Uses(step: Step, n: nat) {
    || ByWorker(step, n)
    || ByPublisher(step, n)
    || (step.Create? && (step.id == n || step.event == Drawn(n)))
    || (step.Replay? && step.event == Drawn(n))
  }

  // One's own steps in a run.
  function OwnWork(steps: seq<Step>, w: Token): seq<Step> {
    if steps == [] then []
    else (if ByWorker(steps[0], w) then [steps[0]] else []) + OwnWork(steps[1..], w)
  }

  lemma {:induction false} OwnWorkJoins(a: seq<Step>, b: seq<Step>, w: Token)
    ensures OwnWork(a + b, w) == OwnWork(a, w) + OwnWork(b, w)
  {
    if a == [] {
      assert a + b == b;
    } else {
      OwnWorkJoins(a[1..], b, w);
      assert (a + b)[1..] == a[1..] + b;
      Associates(if ByWorker(a[0], w) then [a[0]] else [], OwnWork(a[1..], w), OwnWork(b, w));
    }
  }

  lemma {:induction false} NoOwnWork(steps: seq<Step>, w: Token)
    requires forall step | step in steps :: !ByWorker(step, w)
    ensures OwnWork(steps, w) == []
  {
    if steps == [] {
    } else {
      assert steps[0] in steps;
      NoOwnWork(steps[1..], w);
    }
  }

  lemma StepLeavesWorker(s: State, step: Step, w: Token)
    requires Enabled(s, step) && w in s.workers && !ByWorker(step, w)
    ensures w in Do(s, step).workers && Do(s, step).workers[w] == s.workers[w]
  {
    if step.ScheduleDue? {
      ScheduleOnly(s, step.rows, step.now);
    }
  }

  lemma StepLeavesPublisher(s: State, step: Step, p: Token)
    requires Enabled(s, step) && p in s.publishers && !ByPublisher(step, p)
    ensures p in Do(s, step).publishers && Do(s, step).publishers[p] == s.publishers[p]
  {
    if step.ScheduleDue? {
      ScheduleOnly(s, step.rows, step.now);
    }
  }

  // Others cannot touch a session.
  lemma {:induction false} OthersLeaveWorker(s: State, steps: seq<Step>, t: State, w: Token)
    requires Runs(s, steps, t) && w in s.workers && forall step | step in steps :: !ByWorker(step, w)
    ensures w in t.workers && t.workers[w] == s.workers[w]
    decreases |steps|
  {
    if steps == [] {
    } else {
      assert steps[0] in steps;
      StepLeavesWorker(s, steps[0], w);
      OthersLeaveWorker(Do(s, steps[0]), steps[1..], t, w);
    }
  }

  lemma {:induction false} OthersLeavePublisher(s: State, steps: seq<Step>, t: State, p: Token)
    requires Runs(s, steps, t) && p in s.publishers && forall step | step in steps :: !ByPublisher(step, p)
    ensures p in t.publishers && t.publishers[p] == s.publishers[p]
    decreases |steps|
  {
    if steps == [] {
    } else {
      assert steps[0] in steps;
      StepLeavesPublisher(s, steps[0], p);
      OthersLeavePublisher(Do(s, steps[0]), steps[1..], t, p);
    }
  }

  // ---------- the shared world ----------

  lemma ReachableStep(s: State, step: Step)
    requires Reachable(s) && Enabled(s, step)
    ensures Reachable(Do(s, step))
  {
    var steps :| Runs(Init(), steps, s);
    Progress.OneStep(s, step);
    RunsJoin(Init(), steps, s, [step], Do(s, step));
  }

  // One more step at the end of a run.
  lemma RunExtends(s: State, steps: seq<Step>, t: State, step: Step, w: Token)
    requires Runs(s, steps, t) && Enabled(t, step)
    ensures Runs(s, steps + [step], Do(t, step))
    ensures OwnWork(steps + [step], w) == OwnWork(steps, w) + (if ByWorker(step, w) then [step] else [])
  {
    Progress.OneStep(t, step);
    RunsJoin(s, steps, t, [step], Do(t, step));
    OwnWorkJoins(steps, [step], w);
    assert [step][1..] == [];
  }

  // The database, and the protocol state it is the visible part of.
  class World {
    const database: Database
    ghost var sys: State

    ghost predicate Valid()
      reads this, database
    {
      Reachable(sys) && sys.db == database.Db()
    }

    constructor (text: EventId -> nat)
      ensures Valid() && sys == Init() && fresh(database) && database.text == text
    {
      database := new Database(text);
      sys := Init();
      new;
      assert Runs(Init(), [], Init());
    }

    // Whatever the others do meanwhile: any run of steps that leave alone the numbers that one's
    // own session, token or identifiers were drawn as.
    method Others(ghost own: nat, ghost more: nat) returns (ghost steps: seq<Step>)
      requires Valid()
      modifies this, database
      ensures Valid() && Runs(old(sys), steps, sys)
      ensures forall step | step in steps :: !Uses(step, own) && !Uses(step, more)
    {
      steps := [];
    }

    // Interference as a worker session sees it.
    method Meanwhile(ghost lease: Token) returns (ghost steps: seq<Step>)
      requires Valid() && lease in sys.workers
      modifies this, database
      ensures Valid() && Runs(old(sys), steps, sys) && OwnWork(steps, lease) == []
      ensures forall step | step in steps :: !ByWorker(step, lease)
      ensures lease in sys.workers && sys.workers[lease] == old(sys).workers[lease]
    {
      steps := Others(lease, lease);
      OthersLeaveWorker(old(sys), steps, sys, lease);
      NoOwnWork(steps, lease);
    }

    // The bookkeeping of a step whose statement, if it has one, has just been executed.
    ghost method Took(step: Step)
      requires Reachable(sys) && Enabled(sys, step) && Statement(sys, step) == database.Db()
      modifies this
      ensures Valid() && sys == Do(old(sys), step)
    {
      StepIsStatement(sys, step);
      ReachableStep(sys, step);
      sys := Do(sys, step);
    }
  }

  // What one call of Handle meets: clock readings, faults, how many turns of the limiter's loop its
  // context allows, the supplier's answer, and the jitter's draw.
  datatype Surroundings = Surroundings(
    now: Time, leaseTTL: Duration, databaseNow: Time, claimFault: Fault, patience: nat,
    result: SendResult, completedAt: Time, draw: real, applyFault: Fault)

  // After an acquired claim: a refused admission, or admission, one call of Send, and its result.
  predicate DeliveryWork(own: seq<Step>, lease: Token, env: Surroundings, admitted: bool) {
    if !admitted then own == [Admit(lease, false)]
    else
      && |own| == 3 && own[2].Apply?
      && own == [Admit(lease, true), Send(lease, env.result),
                 Apply(lease, env.completedAt, own[2].jittered, env.applyFault)]
  }

  // What Handle does in all: a claim, and if it is acquired, the delivery.
  predicate HandleWork(own: seq<Step>, lease: Token, env: Surroundings, admitted: bool) {
    || own == [Claim(lease, env.now + env.leaseTTL, env.databaseNow, env.claimFault)]
    || (env.claimFault == Answered && |own| > 1
        && own[0] == Claim(lease, env.now + env.leaseTTL, env.databaseNow, env.claimFault)
        && DeliveryWork(own[1..], lease, env, admitted))
  }

  // An acquired claim, and then the delivery.
  lemma ClaimAndDelivery(rest: seq<Step>, lease: Token, env: Surroundings, admitted: bool)
    requires env.claimFault == Answered && DeliveryWork(rest, lease, env, admitted)
    ensures var own := [Claim(lease, env.now + env.leaseTTL, env.databaseNow, env.claimFault)] + rest;
      HandleWork(own, lease, env, admitted) && |own| == if admitted then 4 else 2
  {
    var claim := Claim(lease, env.now + env.leaseTTL, env.databaseNow, env.claimFault);
    assert ([claim] + rest)[1..] == rest;
  }

  // What happened to deliveries and limiter, and which of it was done by the session.
  ghost predicate Happened(s: State, g: Limiter.System, history: seq<Moment>, t: State, k: Limiter.System,
                           lease: Token, th: Limiter.ThreadId, draw: real, own: seq<Step>) {
    Together(s, g, history, t, k, lease, th, draw) && OwnWork(StepsIn(history), lease) == own
  }

  lemma HappenedJoins(s: State, g: Limiter.System, first: seq<Moment>, mid: State, held: Limiter.System,
                      second: seq<Moment>, t: State, k: Limiter.System, lease: Token, th: Limiter.ThreadId, draw: real,
                      did: seq<Step>, does: seq<Step>)
    requires Happened(s, g, first, mid, held, lease, th, draw, did)
    requires Happened(mid, held, second, t, k, lease, th, draw, does)
    ensures Happened(s, g, first + second, t, k, lease, th, draw, did + does)
  {
    TogetherJoins(s, g, first, mid, held, second, t, k, lease, th, draw);
    StepsJoin(first, second);
    OwnWorkJoins(StepsIn(first), StepsIn(second), lease);
  }

  // Only the limiter's threads have done anything.
  lemma TurnsHappened(s: State, g: Limiter.System, turns: seq<Limiter.Step>, k: Limiter.System,
                      lease: Token, th: Limiter.ThreadId, draw: real)
    requires Limiter.Runs(g, turns, k) && forall turn | turn in turns :: AsksFor(s, turn, lease, th)
    ensures Happened(s, g, AllTurns(turns), s, k, lease, th, draw, [])
  {
    TurnsTogether(s, g, turns, k, lease, th, draw);
    OnlyTurns(turns);
  }

  lemma OwnStepHappened(s: State, g: Limiter.System, steps: seq<Step>, mid: State, step: Step,
                        lease: Token, th: Limiter.ThreadId, draw: real)
    requires Runs(s, steps, mid) && (forall other | other in steps :: !ByWorker(other, lease))
    requires Enabled(mid, step) && ByWorker(step, lease) && AtGate(mid, g, step, lease, th, draw)
    ensures Happened(s, g, AllSteps(steps) + [Stepped(step)], Do(mid, step), g, lease, th, draw, [step])
  {
    OwnStepLast(s, g, steps, mid, step, lease, th, draw);
    NoOwnWork(steps, lease);
    RunExtends(s, steps, mid, step, lease);
  }

  // The thread got no slot: it never held one to release, and it was refused at the critical section
  // or for its arguments, unless its context did not let it try.
  ghost predicate Refused(history: seq<Moment>, th: Limiter.ThreadId, patience: nat) {
    && Turned(Limiter.Release(th)) !in history
    && (patience > 0 ==> exists turn | Turned(turn) in history ::
          turn == Limiter.Try(th) || (turn.Start? && turn.th == th && (turn.d == "" || turn.limit < 1)))
  }

  lemma RefusedTurns(turns: seq<Limiter.Step>, more: seq<Moment>, th: Limiter.ThreadId, task: Task, patience: nat)
    requires Limiter.Step.Release(th) !in turns && forall moment | moment in more :: moment.Stepped?
    requires var d, limit := task.request.destination, task.request.concurrencyLimit;
      && Limiter.Start(th, d, limit) in turns && (patience > 0 && d != "" && limit >= 1 ==> Limiter.Try(th) in turns)
    ensures Refused(AllTurns(turns) + more, th, patience)
  {
    var history := AllTurns(turns) + more;
    forall turn | turn in turns ensures Turned(turn) in history {
      var i :| 0 <= i < |turns| && turns[i] == turn;
      assert history[i] == Turned(turn);
    }
  }

  lemma RefusedLater(first: seq<Moment>, more: seq<Moment>, th: Limiter.ThreadId, patience: nat)
    requires Turned(Limiter.Release(th)) !in first && Refused(more, th, patience)
    ensures Refused(first + more, th, patience)
  {}

  // What entitles Handle to acknowledge: a claim answered "not acquired", or an answered result.
  predicate MayAcknowledge(own: seq<Step>, env: Surroundings) {
    (|own| == 1 && env.claimFault == Answered) || (|own| == 4 && env.applyFault == Answered)
  }

  function AfterClaim(reply: ClaimReply): Protocol.Progress {
    match reply
    case ClaimFailed => Done(Requeue)
    case NotAcquired => Done(Ack)
    case Acquired(t) => Claimed(t)
  }

  lemma ClaimAlone(own: seq<Step>, lease: Token, env: Surroundings)
    requires own == [Claim(lease, env.now + env.leaseTTL, env.databaseNow, env.claimFault)]
    ensures HandleWork(own, lease, env, false)
  {}

  class DeliveryService {
    const world: World
    const gate: Limiter.Gate

    constructor (world: World, gate: Limiter.Gate)
      ensures this.world == world && this.gate == gate
    {
      this.world, this.gate := world, gate;
    }

    // The bookkeeping of the session's own step, after the others' `steps`.
    ghost method TookOwn(start: State, steps: seq<Step>, step: Step, lease: Token, th: Limiter.ThreadId, draw: real)
      returns (history: seq<Moment>)
      requires Reachable(world.sys) && Enabled(world.sys, step) && Statement(world.sys, step) == world.database.Db()
      requires Runs(start, steps, world.sys) && forall other | other in steps :: !ByWorker(other, lease)
      requires ByWorker(step, lease) && AtGate(world.sys, gate.sys, step, lease, th, draw)
      modifies world
      ensures world.Valid() && world.sys == Do(old(world.sys), step)
      ensures Happened(start, gate.sys, history, world.sys, gate.sys, lease, th, draw, [step])
      ensures forall moment | moment in history :: moment.Stepped?
    {
      OwnStepHappened(start, gate.sys, steps, world.sys, step, lease, th, draw);
      history := AllSteps(steps) + [Stepped(step)];
      world.Took(step);
    }

    method ClaimCall(lease: Token, ghost th: Limiter.ThreadId, ghost draw: real, message: Message,
                     until: Time, at: Time, fault: Fault)
      returns (reply: ClaimReply, ghost history: seq<Moment>)
      requires world.Valid() && lease in world.sys.workers && world.sys.workers[lease].message == message
      requires world.sys.workers[lease].progress == Received && th !in gate.sys.threads
      modifies world, world.database
      ensures world.Valid()
      ensures Happened(old(world.sys), gate.sys, history, world.sys, gate.sys, lease, th, draw,
                       [Claim(lease, until, at, fault)])
      ensures lease in world.sys.workers
      ensures world.sys.workers[lease] == old(world.sys).workers[lease].(progress := AfterClaim(reply))
      ensures reply == ClaimFailed <==> fault != Answered
      ensures forall moment | moment in history :: moment.Stepped?
    {
      ghost var start := world.sys;
      ghost var steps := world.Meanwhile(lease);
      reply := world.database.ClaimDelivery(message.task, lease, until, at, fault);
      history := TookOwn(start, steps, Claim(lease, until, at, fault), lease, th, draw);
    }

    method AdmitCall(lease: Token, ghost th: Limiter.ThreadId, ghost draw: real, snapshot: Task, admitted: bool)
      returns (ghost history: seq<Moment>)
      requires world.Valid() && lease in world.sys.workers && world.sys.workers[lease].progress == Claimed(snapshot)
      requires if admitted then Holds(gate.sys, th, snapshot.request.destination) else Through(gate.sys, th)
      modifies world, world.database
      ensures world.Valid()
      ensures Happened(old(world.sys), gate.sys, history, world.sys, gate.sys, lease, th, draw,
                       [Admit(lease, admitted)])
      ensures forall moment | moment in history :: moment.Stepped?
      ensures lease in world.sys.workers
      ensures world.sys.workers[lease] == old(world.sys).workers[lease].(progress :=
        if admitted then Admitted(snapshot) else Done(Requeue))
    {
      ghost var start := world.sys;
      ghost var steps := world.Meanwhile(lease);
      history := TookOwn(start, steps, Admit(lease, admitted), lease, th, draw);
    }

    method SendCall(lease: Token, ghost th: Limiter.ThreadId, ghost draw: real, snapshot: Task, result: SendResult)
      returns (ghost history: seq<Moment>)
      requires world.Valid() && lease in world.sys.workers && world.sys.workers[lease].progress == Admitted(snapshot)
      requires SenderMayReturn(result) && Holds(gate.sys, th, snapshot.request.destination)
      modifies world, world.database
      ensures world.Valid()
      ensures Happened(old(world.sys), gate.sys, history, world.sys, gate.sys, lease, th, draw, [Send(lease, result)])
      ensures lease in world.sys.workers
      ensures world.sys.workers[lease] == old(world.sys).workers[lease].(progress := Answer(snapshot, result))
    {
      ghost var start := world.sys;
      ghost var steps := world.Meanwhile(lease);
      history := TookOwn(start, steps, Send(lease, result), lease, th, draw);
    }

    method ApplyCall(lease: Token, ghost th: Limiter.ThreadId, ghost draw: real, message: Message,
                     attempt: AttemptResult, ghost jittered: Duration, fault: Fault)
      returns (reply: UpdateReply, ghost history: seq<Moment>)
      requires world.Valid() && lease in world.sys.workers && world.sys.workers[lease].message == message
      requires world.sys.workers[lease].progress.Answer? && Through(gate.sys, th)
      requires var t := world.sys.workers[lease].progress.snapshot;
        jittered == RetryArithmetic.JitterValue(t.request.policy, t.attempts, draw)
      requires attempt == Decision(world.sys.workers[lease], attempt.completedAt, jittered)
      modifies world, world.database
      ensures world.Valid()
      ensures Happened(old(world.sys), gate.sys, history, world.sys, gate.sys, lease, th, draw,
                       [Apply(lease, attempt.completedAt, jittered, fault)])
      ensures lease in world.sys.workers
      ensures world.sys.workers[lease] == old(world.sys).workers[lease].(progress :=
        Done(if fault == Answered then Ack else Requeue))
      ensures reply == UpdateFailed <==> fault != Answered
    {
      ghost var start := world.sys;
      ghost var steps := world.Meanwhile(lease);
      reply := world.database.ApplyDeliveryResult(message.task, lease, attempt, fault);
      history := TookOwn(start, steps, Apply(lease, attempt.completedAt, jittered, fault), lease, th, draw);
    }

    // Handle's attempt record.
    method Attempt(task: Task, result: SendResult, completedAt: Time, draw: real)
      returns (attempt: AttemptResult, ghost jittered: Duration)
      ensures attempt ==
        Decide(task.request.policy, task.attempts, result, completedAt, Some((d: Duration) => jittered))
      ensures attempt == Decide(task.request.policy, task.attempts, result, completedAt, RetryArithmetic.Jitter(draw))
      ensures attempt.httpStatus == result.httpStatus && attempt.completedAt == completedAt
      ensures attempt.errorCode == result.errorCode && attempt.errorMessage == result.errorMessage
      ensures result.outcome != Retryable ==> attempt.outcome == result.outcome && attempt.nextAttemptAt.None?
      ensures result.outcome == Retryable ==>
        var next := NextAttempt(task.request.policy, task.attempts, result.retryAfter, completedAt,
                                RetryArithmetic.Jitter(draw));
        attempt.nextAttemptAt == next && attempt.outcome == if next.Some? then Retryable else Permanent
      ensures jittered == RetryArithmetic.JitterValue(task.request.policy, task.attempts, draw)
    {
      attempt := AttemptResult(result.outcome, result.httpStatus, result.errorCode, result.errorMessage, None,
                               completedAt);
      if result.outcome == Retryable {
        var next := NextAttempt(task.request.policy, task.attempts, result.retryAfter, completedAt,
                                RetryArithmetic.Jitter(draw));
        if next.Some? {
          attempt := attempt.(nextAttemptAt := next);
        } else {
          attempt := attempt.(outcome := Permanent);
        }
      }
      jittered := RetryArithmetic.JitterValue(task.request.policy, task.attempts, draw);
      RetryArithmetic.JitterByValue(task.request.policy, task.attempts, result, completedAt, draw);
    }

    // Handle from its call of Send on: the slot is held until Send has returned, and released
    // before the result is written.
    method SendAndApply(lease: Token, ghost th: Limiter.ThreadId, grant: Limiter.Grant, message: Message, task: Task,
                        env: Surroundings)
      returns (disposition: Disposition, ghost jittered: Duration, ghost history: seq<Moment>)
      requires world.Valid() && SenderMayReturn(env.result)
      requires lease in world.sys.workers && world.sys.workers[lease].message == message
      requires world.sys.workers[lease].progress == Admitted(task)
      requires gate.Valid() && Holds(gate.sys, th, grant.destination) && grant.destination == task.request.destination
      requires grant.limiter == gate.limiter && !grant.released
      modifies world, world.database, gate, gate.limiter, grant
      ensures world.Valid() && gate.Valid()
      ensures Happened(old(world.sys), old(gate.sys), history, world.sys, gate.sys, lease, th, env.draw,
                       [Send(lease, env.result), Apply(lease, env.completedAt, jittered, env.applyFault)])
      ensures lease in world.sys.workers
      ensures world.sys.workers[lease] == old(world.sys).workers[lease].(progress := Done(disposition))
      ensures disposition == if env.applyFault == Answered then Ack else Requeue
      ensures jittered == RetryArithmetic.JitterValue(task.request.policy, task.attempts, env.draw)
      ensures Through(gate.sys, th) && grant.released
    {
      ghost var start, held := world.sys, gate.sys;
      history := SendHeld(lease, th, env.draw, grant, task, env.result);
      ghost var sent, left := world.sys, gate.sys;
      var attempt;
      attempt, jittered := Attempt(task, env.result, env.completedAt, env.draw);
      var applied;
      ghost var more;
      applied, more := ApplyCall(lease, th, env.draw, message, attempt, jittered, env.applyFault);
      HappenedJoins(start, held, history, sent, left, more, world.sys, gate.sys, lease, th, env.draw,
                    [Send(lease, env.result)], [Apply(lease, env.completedAt, jittered, env.applyFault)]);
      history := history + more;
      disposition := if applied == UpdateFailed then Requeue else Ack;
    }

    // The function literal in Handle: Send, and the deferred release.
    method SendHeld(lease: Token, ghost th: Limiter.ThreadId, ghost draw: real, grant: Limiter.Grant, task: Task,
                    result: SendResult)
      returns (ghost history: seq<Moment>)
      requires world.Valid() && SenderMayReturn(result)
      requires lease in world.sys.workers && world.sys.workers[lease].progress == Admitted(task)
      requires gate.Valid() && Holds(gate.sys, th, grant.destination) && grant.destination == task.request.destination
      requires grant.limiter == gate.limiter && !grant.released
      modifies world, world.database, gate, gate.limiter, grant
      ensures world.Valid() && gate.Valid()
      ensures Happened(old(world.sys), old(gate.sys), history, world.sys, gate.sys, lease, th, draw,
                       [Send(lease, result)])
      ensures lease in world.sys.workers
      ensures world.sys.workers[lease] == old(world.sys).workers[lease].(progress := Answer(task, result))
      ensures Through(gate.sys, th) && grant.released
    {
      ghost var start, held := world.sys, gate.sys;
      ghost var turns := gate.Others(th);
      ghost var during := gate.sys;
      TurnsHappened(start, held, turns, during, lease, th, draw);
      ghost var sends := SendCall(lease, th, draw, task, result);
      ghost var sent := world.sys;
      ghost var released := gate.Release(th, grant);
      TurnsHappened(sent, during, released, gate.sys, lease, th, draw);
      HappenedJoins(start, held, AllTurns(turns), start, during, sends, sent, during, lease, th, draw,
                    [], [Send(lease, result)]);
      HappenedJoins(start, held, AllTurns(turns) + sends, sent, during, AllTurns(released), sent, gate.sys,
                    lease, th, draw, [] + [Send(lease, result)], []);
      history := AllTurns(turns) + sends + AllTurns(released);
      assert [] + [Send(lease, result)] + [] == [Send(lease, result)];
    }

    // Acquire, and the session's admission or refusal.
    method Admission(lease: Token, ghost th: Limiter.ThreadId, ghost draw: real, task: Task, patience: nat)
      returns (grant: Limiter.Grant?, ghost history: seq<Moment>)
      requires world.Valid() && lease in world.sys.workers && world.sys.workers[lease].progress == Claimed(task)
      requires gate.Valid() && th !in gate.sys.threads
      modifies world, world.database, gate, gate.limiter
      ensures world.Valid() && gate.Valid()
      ensures Happened(old(world.sys), old(gate.sys), history, world.sys, gate.sys, lease, th, draw,
                       [Admit(lease, grant != null)])
      ensures lease in world.sys.workers
      ensures world.sys.workers[lease] == old(world.sys).workers[lease].(progress :=
        if grant != null then Admitted(task) else Done(Requeue))
      ensures grant == null ==> Through(gate.sys, th) && Refused(history, th, patience)
      ensures grant != null ==>
        && Holds(gate.sys, th, grant.destination) && grant.destination == task.request.destination
        && grant.limiter == gate.limiter && !grant.released && fresh(grant)
    {
      ghost var start, before, turns := world.sys, gate.sys, [];
      grant, turns := gate.Acquire(th, task.request.destination, task.request.concurrencyLimit, patience);
      TurnsHappened(start, before, turns, gate.sys, lease, th, draw);
      ghost var more := AdmitCall(lease, th, draw, task, grant != null);
      HappenedJoins(start, before, AllTurns(turns), start, gate.sys, more, world.sys, gate.sys, lease, th, draw,
                    [], [Admit(lease, grant != null)]);
      history := AllTurns(turns) + more;
      if grant == null {
        RefusedTurns(turns, more, th, task, patience);
      }
      assert [] + [Admit(lease, grant != null)] == [Admit(lease, grant != null)];
    }

    // Handle from its call of Acquire on.
    method AdmitAndDeliver(lease: Token, ghost th: Limiter.ThreadId, message: Message, task: Task, env: Surroundings)
      returns (disposition: Disposition, ghost admitted: bool, ghost own: seq<Step>, ghost history: seq<Moment>)
      requires world.Valid() && SenderMayReturn(env.result)
      requires lease in world.sys.workers && world.sys.workers[lease].message == message
      requires world.sys.workers[lease].progress == Claimed(task)
      requires gate.Valid() && th !in gate.sys.threads
      modifies world, world.database, gate, gate.limiter
      ensures world.Valid() && gate.Valid()
      ensures Happened(old(world.sys), old(gate.sys), history, world.sys, gate.sys, lease, th, env.draw, own)
      ensures DeliveryWork(own, lease, env, admitted) && Through(gate.sys, th)
      ensures !admitted ==> Refused(history, th, env.patience)
      ensures lease in world.sys.workers
      ensures world.sys.workers[lease] == old(world.sys).workers[lease].(progress := Done(disposition))
      ensures disposition == if admitted && env.applyFault == Answered then Ack else Requeue
    {
      ghost var start, before := world.sys, gate.sys;
      var grant;
      grant, history := Admission(lease, th, env.draw, task, env.patience);
      admitted, own := grant != null, [Admit(lease, grant != null)];
      if grant == null {
        disposition := Requeue;
        return;
      }
      ghost var mid, held := world.sys, gate.sys;
      ghost var jittered, more;
      disposition, jittered, more := SendAndApply(lease, th, grant, message, task, env);
      ghost var rest := [Send(lease, env.result), Apply(lease, env.completedAt, jittered, env.applyFault)];
      HappenedJoins(start, before, history, mid, held, more, world.sys, gate.sys, lease, th, env.draw, own, rest);
      history, own := history + more, own + rest;
    }

    // Handle after an acquired claim, `first` being what happened up to it.
    method Deliver(lease: Token, ghost th: Limiter.ThreadId, message: Message, task: Task, env: Surroundings,
                   ghost start: State, ghost free: Limiter.System, ghost first: seq<Moment>)
      returns (disposition: Disposition, ghost admitted: bool, ghost own: seq<Step>, ghost history: seq<Moment>)
      requires world.Valid() && SenderMayReturn(env.result) && env.claimFault == Answered
      requires lease in world.sys.workers && world.sys.workers[lease].message == message
      requires world.sys.workers[lease].progress == Claimed(task)
      requires gate.Valid() && th !in gate.sys.threads && Turned(Limiter.Release(th)) !in first
      requires free == gate.sys
      requires Happened(start, free, first, world.sys, free, lease, th, env.draw,
                        [Claim(lease, env.now + env.leaseTTL, env.databaseNow, env.claimFault)])
      modifies world, world.database, gate, gate.limiter
      ensures world.Valid() && gate.Valid()
      ensures Happened(start, free, history, world.sys, gate.sys, lease, th, env.draw, own)
      ensures HandleWork(own, lease, env, admitted) && |own| == (if admitted then 4 else 2) && Through(gate.sys, th)
      ensures !admitted ==> Refused(history, th, env.patience)
      ensures lease in world.sys.workers
      ensures world.sys.workers[lease] == old(world.sys).workers[lease].(progress := Done(disposition))
      ensures disposition == if admitted && env.applyFault == Answered then Ack else Requeue
    {
      ghost var mid := world.sys;
      ghost var rest, more;
      disposition, admitted, rest, more := AdmitAndDeliver(lease, th, message, task, env);
      own := [Claim(lease, env.now + env.leaseTTL, env.databaseNow, env.claimFault)];
      HappenedJoins(start, free, first, mid, free, more, world.sys, gate.sys, lease, th, env.draw, own, rest);
      ClaimAndDelivery(rest, lease, env, admitted);
      history, own := first + more, own + rest;
      if !admitted {
        RefusedLater(first, more, th, env.patience);
      }
    }

    // delivery.Service.Handle for the message held by session `lease`, run by thread `th`.
    // `history` is everything that happened meanwhile, by this session and thread and by others,
    // and `own` what the session did.
    method Handle(lease: Token, ghost th: Limiter.ThreadId, message: Message, env: Surroundings)
      returns (disposition: Disposition, ghost admitted: bool, ghost own: seq<Step>, ghost history: seq<Moment>)
      requires world.Valid() && SenderMayReturn(env.result)
      requires lease in world.sys.workers && world.sys.workers[lease].message == message
      requires world.sys.workers[lease].progress == Received
      requires gate.Valid() && th !in gate.sys.threads
      modifies world, world.database, gate, gate.limiter
      ensures world.Valid() && gate.Valid()
      ensures Happened(old(world.sys), old(gate.sys), history, world.sys, gate.sys, lease, th, env.draw, own)
      ensures HandleWork(own, lease, env, admitted) && Through(gate.sys, th)
      ensures |own| == 2 ==> Refused(history, th, env.patience)
      ensures lease in world.sys.workers
      ensures world.sys.workers[lease] == old(world.sys).workers[lease].(progress := Done(disposition))
      ensures disposition != Reject && (disposition == Ack <==> MayAcknowledge(own, env))
    {
      ghost var start, free := world.sys, gate.sys;
      var claim;
      claim, history :=
        ClaimCall(lease, th, env.draw, message, env.now + env.leaseTTL, env.databaseNow, env.claimFault);
      if claim.Acquired? {
        disposition, admitted, own, history := Deliver(lease, th, message, claim.task, env, start, free, history);
        return;
      }
      own := [Claim(lease, env.now + env.leaseTTL, env.databaseNow, env.claimFault)];
      ClaimAlone(own, lease, env);
      assert Happened(start, free, history, world.sys, gate.sys, lease, th, env.draw, own);
      disposition, admitted := if claim == ClaimFailed then Requeue else Ack, false;
    }
  }
}
