/** The transactions' atomic actions and the protocol's steps are the same: each step commits one
    action or none, and each action is some step's. */
module Atomicity {
  import opened Wrappers
  import opened Tables
  import opened Notification
  import opened Rows
  import opened Protocol
  import opened Invariant
  import opened Origins
  import Programs
  import Sequences
  import Progress
  import Locks = RowLocks

  // What a step commits.
  ghost function Action(s: State, step: Step): Option<Locks.Atomic>
    requires Enabled(s, step)
  {
    match step
    case Create(id, request, event) => Some(Locks.Atomic.Create(id, request, event))
    case ClaimOutbox(p, events, now, until, fault) => Some(Locks.Atomic.ClaimEvents(events, now, p, until))
    case MarkPublished(p, at, fault) =>
      if fault == Lost then None
      else Some(Locks.Statement(Locks.Mark(s.publishers[p].batch[s.publishers[p].next].event, p, at)))
    case Claim(w, until, at, fault) =>
      if fault == Lost then None else Some(Locks.Statement(Locks.Claim(s.workers[w].message.task, w, until, at)))
    case Apply(w, at, jittered, fault) =>
      if fault == Lost then None
      else Some(Locks.Statement(Locks.Apply(s.workers[w].message.task, w, Decision(s.workers[w], at, jittered))))
    case ScheduleDue(now, rows) => Some(Locks.Atomic.ScheduleDue(now, rows))
    case Replay(id, now, event) => Some(Locks.Atomic.Replay(id, now, event))
    case DeleteTerminal(cutoff, doomed) => Some(Locks.Statement(Locks.DeleteTerminal(cutoff, doomed)))
    case _ => None
  }

  lemma FreshIds(s: State)
    requires Reachable(s)
    ensures s.db.tasks.Keys <= s.ledgers.Keys && s.db.events.Keys <= s.born.Keys && DigestsName(s.db.events)
  {
    ReachableHolds(s);
    DigestsNamed(s);
    forall e | e in s.db.events ensures e in s.born {
      assert EventOk(e, s.db.events[e], s.born, s.enqueued);
    }
  }

  lemma ActionIsStatement(s: State, step: Step)
    requires Enabled(s, step)
    ensures Action(s, step).None? ==> Statement(s, step) == s.db
    ensures Action(s, step).Some? ==> Statement(s, step) == Locks.AtomicExec(s.db, Action(s, step).value)
  {}

  // A step commits its action, allowed as it is, or leaves the tables alone.
  lemma StepIsAction(s: State, step: Step)
    requires Reachable(s) && Enabled(s, step)
    ensures Action(s, step).None? ==> Do(s, step).db == s.db
    ensures Action(s, step).Some? ==>
      var a := Action(s, step).value;
      Locks.AtomicAllowed(s.db, a) && Do(s, step).db == Locks.AtomicExec(s.db, a)
  {
    StepIsStatement(s, step);
    ActionIsStatement(s, step);
    FreshIds(s);
  }

  // Whoever may issue the action is there: fresh identifiers, and for the statements of Handle and
  // RunOnce the session that has got as far.
  ghost predicate Issuable(s: State, a: Locks.Atomic) {
    match a
    case ScheduleDue(now, rows) => true
    case Replay(id, now, event) => event !in s.born
    case ClaimEvents(events, now, token, until) => token !in s.claims
    case Create(id, request, event) => id !in s.ledgers && event !in s.born && request.Admissible()
    case Statement(op) =>
      match op
      case Claim(id, token, until, at) =>
        token in s.workers && s.workers[token].progress.Received? && s.workers[token].message.task == id
      case Apply(id, token, result) =>
        && token in s.workers && s.workers[token].progress.Answer? && s.workers[token].message.task == id
        && exists jittered :: result == Decision(s.workers[token], result.completedAt, jittered)
      case DeleteTerminal(cutoff, doomed) => true
      case Mark(event, token, at) =>
        && token in s.publishers && s.publishers[token].confirmed
        && s.publishers[token].next < |s.publishers[token].batch|
        && s.publishers[token].batch[s.publishers[token].next].event == event
  }

  // And every action allowed on the tables is the action of an enabled step.
  lemma ActionIsStep(s: State, a: Locks.Atomic) returns (step: Step)
    requires Locks.AtomicAllowed(s.db, a) && Issuable(s, a)
    ensures Enabled(s, step) && Action(s, step) == Some(a)
  {
    match a
    case ScheduleDue(now, rows) => step := Step.ScheduleDue(now, rows);
    case Replay(id, now, event) => step := Step.Replay(id, now, event);
    case ClaimEvents(events, now, token, until) => step := Step.ClaimOutbox(token, events, now, until, Answered);
    case Create(id, request, event) => step := Step.Create(id, request, event);
    case Statement(op) =>
      match op
      case Claim(id, token, until, at) => step := Step.Claim(token, until, at, Answered);
      case Apply(id, token, result) =>
        var jittered :| result == Decision(s.workers[token], result.completedAt, jittered);
        step := Step.Apply(token, result.completedAt, jittered, Answered);
      case DeleteTerminal(cutoff, doomed) => step := Step.DeleteTerminal(cutoff, doomed);
      case Mark(event, token, at) => step := Step.MarkPublished(token, at, Answered);
  }

  // ---------- runs ----------

  ghost function Actions(s: State, steps: seq<Step>, t: State): seq<Locks.Atomic>
    requires Runs(s, steps, t)
    decreases |steps|
  {
    if steps == [] then [] else Committed(s, steps[0]) + Actions(Do(s, steps[0]), steps[1..], t)
  }

  // A step's action, if it has one.
  ghost function Committed(s: State, step: Step): seq<Locks.Atomic>
    requires Enabled(s, step)
  {
    if Action(s, step).Some? then [Action(s, step).value] else []
  }

  lemma {:induction false} RunIsActions(s: State, steps: seq<Step>, t: State)
    requires Reachable(s) && Runs(s, steps, t)
    ensures Locks.AtomicRuns(s.db, Actions(s, steps, t), t.db)
    decreases |steps|
  {
    if steps == [] {
    } else {
      var mid := Do(s, steps[0]);
      StepIsAction(s, steps[0]);
      Programs.ReachableStep(s, steps[0]);
      RunIsActions(mid, steps[1..], t);
      var rest := Actions(mid, steps[1..], t);
      if Action(s, steps[0]).Some? {
        var a := Action(s, steps[0]).value;
        assert ([a] + rest)[1..] == rest;
        assert Actions(s, steps, t) == [a] + rest;
      } else {
        assert [] + rest == rest;
      }
    }
  }

  lemma {:induction false} SameActions(db: DB, actions: seq<Locks.Atomic>, a: DB, b: DB)
    requires Locks.AtomicRuns(db, actions, a) && Locks.AtomicRuns(db, actions, b)
    ensures a == b
    decreases |actions|
  {
    if actions == [] {
    } else {
      SameActions(Locks.AtomicExec(db, actions[0]), actions[1..], a, b);
    }
  }

  // Whatever transactions interleave, lock by lock, from a reachable state's tables: any protocol
  // run that takes their effects in commit order ends in the same tables.
  lemma SameEffectsSameTables(s: State, steps: seq<Step>, t: State, locked: seq<Locks.Step>, u: Locks.State)
    requires Reachable(s) && Runs(s, steps, t)
    requires var start := Locks.State(s.db, map[]);
      Locks.Runs(start, locked, u) && Locks.Effects(start, locked, u) == Actions(s, steps, t)
    ensures u.db == t.db
  {
    FreshIds(s);
    Locks.EmptyHolds(s.db);
    Locks.LocksRefineAtomic(Locks.State(s.db, map[]), locked, u);
    RunIsActions(s, steps, t);
    SameActions(s.db, Actions(s, steps, t), t.db, u.db);
  }

  // Steps that touch no table.
  ghost predicate Silent(s: State, steps: seq<Step>, t: State) {
    Runs(s, steps, t) && Actions(s, steps, t) == [] && t.db == s.db
  }

  lemma OneSilent(s: State, step: Step)
    requires Enabled(s, step) && Action(s, step).None? && Do(s, step).db == s.db
    ensures Silent(s, [step], Do(s, step))
  {
    assert [step][1..] == [];
  }

  lemma {:induction false} ActionsJoin(s: State, first: seq<Step>, t: State, second: seq<Step>, u: State)
    requires Runs(s, first, t) && Runs(t, second, u)
    ensures Runs(s, first + second, u) && Actions(s, first + second, u) == Actions(s, first, t) + Actions(t, second, u)
    decreases |first|
  {
    RunsJoin(s, first, t, second, u);
    if first == [] {
      assert first + second == second;
    } else {
      var mid := Do(s, first[0]);
      ActionsJoin(mid, first[1..], t, second, u);
      FirstAction(s, first[0], first[1..] + second, u);
      Sequences.HeadFirst(first, second);
      Sequences.Associates(Committed(s, first[0]), Actions(mid, first[1..], t), Actions(t, second, u));
    }
  }

  lemma FirstAction(s: State, step: Step, rest: seq<Step>, t: State)
    requires Enabled(s, step) && Runs(Do(s, step), rest, t)
    ensures Runs(s, [step] + rest, t)
    ensures Actions(s, [step] + rest, t) == Committed(s, step) + Actions(Do(s, step), rest, t)
  {
    assert ([step] + rest)[1..] == rest;
  }

  lemma ReachableRun(s: State, steps: seq<Step>, t: State)
    requires Reachable(s) && Runs(s, steps, t)
    ensures Reachable(t)
  {
    var before :| Runs(Init(), before, s);
    RunsJoin(Init(), before, s, steps, t);
  }
}
