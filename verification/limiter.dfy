/** The per-destination concurrency limiter (internal/delivery/limiter.go): the mutex-guarded
    sections as a class, and their composition by any number of threads as a transition system. */
module Limiter {
  import Sequences

  // A `chan struct{}`: named by the order of its creation, open until it is closed.
  type Channel = nat

  datatype Capacity = Capacity(limit: int, active: int, changed: Channel)

  // What the mutex guards, the channels closed so far, and the number of channels made.
  datatype Monitor = Monitor(destinations: map<string, Capacity>, closed: set<Channel>, made: nat)
  {
    // notify: close the current channel and replace it.
    function Notified(d: string): Monitor
      requires d in destinations
    {
      Monitor(destinations[d := destinations[d].(changed := made)], closed + {destinations[d].changed}, made + 1)
    }

    // Entering Acquire's critical section: the entry is made, or its limit lowered.
    function Lowered(d: string, limit: int): Monitor {
      if d !in destinations then Monitor(destinations[d := Capacity(limit, 0, made)], closed, made + 1)
      else if limit < destinations[d].limit
      then this.(destinations := destinations[d := destinations[d].(limit := limit)]).Notified(d)
      else this
    }

    predicate Full(d: string)
      requires d in destinations
    {
      destinations[d].active >= destinations[d].limit
    }

    // The whole critical section: a grant, or the channel to wait on.
    function Entered(d: string, limit: int): Monitor {
      var m := Lowered(d, limit);
      if m.Full(d) then m
      else m.(destinations := m.destinations[d := m.destinations[d].(active := m.destinations[d].active + 1)])
    }

    // The release closure's critical section.
    function Left(d: string): Monitor
      requires d in destinations
    {
      this.(destinations := destinations[d := destinations[d].(active := destinations[d].active - 1)]).Notified(d)
    }

    // Every entry has a positive limit and an open channel of its own.
    ghost predicate Valid() {
      && (forall c | c in closed :: c < made)
      && (forall d | d in destinations ::
            && destinations[d].limit >= 1
            && destinations[d].changed < made && destinations[d].changed !in closed)
      && (forall d, e | d in destinations && e in destinations && d != e ::
            destinations[d].changed != destinations[e].changed)
    }
  }

  // ---------- the code ----------

  class CapacityLimiter {
    var destinations: map<string, Capacity>
    var closed: set<Channel>
    var made: nat

    ghost function State(): Monitor
      reads this
    {
      Monitor(destinations, closed, made)
    }

    constructor ()
      ensures State() == Monitor(map[], {}, 0) && State().Valid()
    {
      destinations, closed, made := map[], {}, 0;
    }

    // Closing a closed channel panics: the precondition must hold wherever notify is called.
    method Notify(d: string)
      requires d in destinations && destinations[d].changed !in closed
      modifies this
      ensures State() == old(State()).Notified(d)
    {
      closed := closed + {destinations[d].changed};
      destinations := destinations[d := destinations[d].(changed := made)];
      made := made + 1;
    }

    // One pass of Acquire's loop between Lock and Unlock.
    method Enter(d: string, limit: int) returns (granted: bool, changed: Channel)
      requires State().Valid() && limit >= 1
      modifies this
      ensures State() == old(State()).Entered(d, limit) && State().Valid()
      ensures d in destinations && destinations[d].limit <= limit
      ensures granted <==> !old(State()).Lowered(d, limit).Full(d)
      ensures granted ==> destinations[d].active <= destinations[d].limit
      ensures !granted ==> changed == destinations[d].changed && changed !in closed
      ensures forall e | e in old(destinations) && e != d ::
        e in destinations && destinations[e] == old(destinations[e])
      ensures destinations.Keys == old(destinations).Keys + {d}
      ensures d !in old(destinations) ==>
        && granted && destinations[d].limit == limit && destinations[d].active == 1 && closed == old(closed)
      ensures d in old(destinations) ==>
        var was := old(destinations)[d];
        && destinations[d].limit == (if limit < was.limit then limit else was.limit)
        && (granted <==> was.active < destinations[d].limit)
        && destinations[d].active == was.active + (if granted then 1 else 0)
        && closed == old(closed) + (if limit < was.limit then {was.changed} else {})
        && (limit >= was.limit ==> destinations[d].changed == was.changed)
    {
      EnteredFacts(State(), d, limit);
      EnteredColumns(State(), d, limit);
      if d !in destinations {
        destinations := destinations[d := Capacity(limit, 0, made)];
        made := made + 1;
      } else if limit < destinations[d].limit {
        destinations := destinations[d := destinations[d].(limit := limit)];
        Notify(d);
      }
      assert State() == old(State()).Lowered(d, limit);
      changed := destinations[d].changed;
      granted := destinations[d].active < destinations[d].limit;
      if granted {
        destinations := destinations[d := destinations[d].(active := destinations[d].active + 1)];
      }
    }

    method Leave(d: string)
      requires State().Valid() && d in destinations
      modifies this
      ensures State() == old(State()).Left(d) && State().Valid()
      ensures d in destinations && destinations[d].active == old(destinations)[d].active - 1
      ensures destinations[d].limit == old(destinations)[d].limit
      ensures closed == old(closed) + {old(destinations)[d].changed}
      ensures destinations.Keys == old(destinations).Keys
      ensures forall e | e in old(destinations) && e != d :: destinations[e] == old(destinations)[e]
    {
      LeftColumns(State(), d);
      destinations := destinations[d := destinations[d].(active := destinations[d].active - 1)];
      Notify(d);
    }
  }

  // The closure Acquire returns, with its sync.Once.
  class Grant {
    const limiter: CapacityLimiter
    const destination: string
    var released: bool

    constructor (limiter: CapacityLimiter, destination: string)
      ensures this.limiter == limiter && this.destination == destination && !released
    {
      this.limiter, this.destination, released := limiter, destination, false;
    }

    method Release()
      requires limiter.State().Valid() && destination in limiter.destinations
      modifies this, limiter
      ensures released && limiter.State().Valid()
      ensures limiter.State() == if old(released) then old(limiter.State()) else old(limiter.State()).Left(destination)
    {
      if !released {
        released := true;
        limiter.Leave(destination);
      }
    }
  }

  // ---------- any number of threads ----------

  type ThreadId = nat

  // A call of Acquire: about to lock, blocked on a channel, admitted, or over (released,
  // cancelled, or rejected for its arguments).
  datatype Thread =
    | Trying(d: string, limit: int)
    | Waiting(d: string, limit: int, channel: Channel)
    | Holding(d: string)
    | Finished

  // `lowest` is history: the smallest limit each destination's critical section has seen.
  datatype System = System(monitor: Monitor, threads: map<ThreadId, Thread>, lowest: map<string, int>)

  datatype Step =
    | Start(th: ThreadId, d: string, limit: int)
    | Try(th: ThreadId)
    | Wake(th: ThreadId)
    | Cancel(th: ThreadId)
    | Release(th: ThreadId)
    | ReleaseAgain(th: ThreadId)

  function Init(): System {
    System(Monitor(map[], {}, 0), map[], map[])
  }

  predicate Enabled(s: System, step: Step) {
    match step
    case Start(th, d, limit) => th !in s.threads
    case Try(th) => th in s.threads && s.threads[th].Trying?
    case Wake(th) => th in s.threads && s.threads[th].Waiting? && s.threads[th].channel in s.monitor.closed
    case Cancel(th) => th in s.threads && (s.threads[th].Trying? || s.threads[th].Waiting?)
    case Release(th) => th in s.threads && s.threads[th].Holding? && s.threads[th].d in s.monitor.destinations
    case ReleaseAgain(th) => th in s.threads && s.threads[th].Finished?
  }

  function Seen(lowest: map<string, int>, d: string, limit: int): map<string, int> {
    if d in lowest && lowest[d] <= limit then lowest else lowest[d := limit]
  }

  function DoTry(s: System, th: ThreadId): System
    requires Enabled(s, Try(th))
  {
    var d, limit := s.threads[th].d, s.threads[th].limit;
    var lowered := s.monitor.Lowered(d, limit);
    System(s.monitor.Entered(d, limit),
           s.threads[th := if lowered.Full(d) then Waiting(d, limit, lowered.destinations[d].changed) else Holding(d)],
           Seen(s.lowest, d, limit))
  }

  function Do(s: System, step: Step): System
    requires Enabled(s, step)
  {
    match step
    case Start(th, d, limit) =>
      s.(threads := s.threads[th := if d == "" || limit < 1 then Finished else Trying(d, limit)])
    case Try(th) => DoTry(s, th)
    case Wake(th) => s.(threads := s.threads[th := Trying(s.threads[th].d, s.threads[th].limit)])
    case Cancel(th) => s.(threads := s.threads[th := Finished])
    case Release(th) => s.(monitor := s.monitor.Left(s.threads[th].d), threads := s.threads[th := Finished])
    case ReleaseAgain(th) => s
  }

  ghost predicate Runs(s: System, steps: seq<Step>, t: System)
    decreases |steps|
  {
    if steps == [] then s == t
    else Enabled(s, steps[0]) && Runs(Do(s, steps[0]), steps[1..], t)
  }

  ghost predicate Reachable(s: System) {
    exists steps :: Runs(Init(), steps, s)
  }

  function Holders(threads: map<ThreadId, Thread>, d: string): set<ThreadId> {
    set th | th in threads && threads[th] == Holding(d)
  }

  ghost predicate Inv(s: System) {
    && s.monitor.Valid()
    && s.lowest.Keys == s.monitor.destinations.Keys
    && (forall d | d in s.monitor.destinations ::
          && s.monitor.destinations[d].limit == s.lowest[d]
          && s.monitor.destinations[d].active == |Holders(s.threads, d)|)
    && (forall th | th in s.threads && s.threads[th].Trying? :: s.threads[th].limit >= 1)
    && (forall th | th in s.threads && s.threads[th].Holding? :: s.threads[th].d in s.monitor.destinations)
    && (forall th | th in s.threads && s.threads[th].Waiting? :: WaiterOk(s.monitor, s.threads[th]))
  }

  // Whoever waits on a channel that is still open waits on the destination's current channel, and
  // the destination is full.
  ghost predicate WaiterOk(m: Monitor, t: Thread)
    requires t.Waiting?
  {
    && t.d in m.destinations && t.limit >= 1 && t.channel < m.made
    && (t.channel !in m.closed ==> t.channel == m.destinations[t.d].changed && m.Full(t.d))
  }

  lemma HoldersAfter(threads: map<ThreadId, Thread>, th: ThreadId, now: Thread, d: string)
    requires th in threads ==> threads[th] != Holding(d) || now != Holding(d)
    ensures |Holders(threads[th := now], d)| ==
      |Holders(threads, d)| + (if now == Holding(d) then 1 else 0)
      - (if th in threads && threads[th] == Holding(d) then 1 else 0)
  {
    var before, after := Holders(threads, d), Holders(threads[th := now], d);
    if now == Holding(d) {
      assert after == before + {th};
    } else if th in threads && threads[th] == Holding(d) {
      assert after == before - {th};
    } else {
      assert after == before;
    }
  }

  lemma NotifiedValid(m: Monitor, d: string)
    requires m.Valid() && d in m.destinations
    ensures m.Notified(d).Valid()
  {}

  lemma LoweredValid(m: Monitor, d: string, limit: int)
    requires m.Valid() && limit >= 1
    ensures m.Lowered(d, limit).Valid()
  {
    if d in m.destinations && limit < m.destinations[d].limit {
      NotifiedValid(m.(destinations := m.destinations[d := m.destinations[d].(limit := limit)]), d);
    }
  }

  lemma EnteredValid(m: Monitor, d: string, limit: int)
    requires m.Valid() && limit >= 1
    ensures m.Entered(d, limit).Valid()
  {
    LoweredValid(m, d, limit);
  }

  lemma LeftValid(m: Monitor, d: string)
    requires m.Valid() && d in m.destinations
    ensures m.Left(d).Valid()
  {}

  // What a pass of the critical section does.
  lemma EnteredFacts(m: Monitor, d: string, limit: int)
    requires m.Valid() && limit >= 1
    ensures var lowered, after := m.Lowered(d, limit), m.Entered(d, limit);
      && after.Valid() && d in after.destinations && after.destinations[d].limit <= limit
      && (lowered.Full(d) ==> after.destinations[d].changed !in after.closed)
      && (!lowered.Full(d) ==> after.destinations[d].active <= after.destinations[d].limit)
      && forall e | e in m.destinations && e != d ::
           e in after.destinations && after.destinations[e] == m.destinations[e]
  {
    EnteredValid(m, d, limit);
  }

  lemma EnteredColumns(m: Monitor, d: string, limit: int)
    ensures var after, granted := m.Entered(d, limit), !m.Lowered(d, limit).Full(d);
      && after.destinations.Keys == m.destinations.Keys + {d}
      && (d !in m.destinations && limit >= 1 ==>
            && granted && after.destinations[d].limit == limit && after.destinations[d].active == 1
            && after.closed == m.closed)
      && (d in m.destinations ==>
            var was := m.destinations[d];
            && after.destinations[d].limit == (if limit < was.limit then limit else was.limit)
            && (granted <==> was.active < after.destinations[d].limit)
            && after.destinations[d].active == was.active + (if granted then 1 else 0)
            && after.closed == m.closed + (if limit < was.limit then {was.changed} else {})
            && (limit >= was.limit ==> after.destinations[d].changed == was.changed))
  {}

  lemma LeftColumns(m: Monitor, d: string)
    requires d in m.destinations
    ensures var was, after := m.destinations[d], m.Left(d);
      && after.destinations.Keys == m.destinations.Keys
      && after.destinations[d].active == was.active - 1 && after.destinations[d].limit == was.limit
      && after.closed == m.closed + {was.changed}
      && forall e | e in m.destinations && e != d :: after.destinations[e] == m.destinations[e]
  {}

  // Entering and leaving keep every other waiter's guarantee.
  lemma WaiterStaysEnter(m: Monitor, d: string, limit: int, t: Thread)
    requires m.Valid() && limit >= 1 && t.Waiting? && WaiterOk(m, t)
    ensures WaiterOk(m.Entered(d, limit), t)
  {}

  lemma WaiterStaysLeave(m: Monitor, d: string, t: Thread)
    requires m.Valid() && d in m.destinations && t.Waiting? && WaiterOk(m, t)
    ensures WaiterOk(m.Left(d), t)
  {}

  lemma EnteredCounts(s: System, th: ThreadId, d: string, limit: int, now: Thread, e: string)
    requires Inv(s) && th in s.threads && s.threads[th] == Trying(d, limit)
    requires now == if s.monitor.Lowered(d, limit).Full(d)
                    then Waiting(d, limit, s.monitor.Lowered(d, limit).destinations[d].changed) else Holding(d)
    requires e in s.monitor.Entered(d, limit).destinations
    ensures s.monitor.Entered(d, limit).destinations[e].active == |Holders(s.threads[th := now], e)|
    ensures e in Seen(s.lowest, d, limit)
    ensures s.monitor.Entered(d, limit).destinations[e].limit == Seen(s.lowest, d, limit)[e]
  {
    HoldersAfter(s.threads, th, now, e);
    if e !in s.monitor.destinations {
      assert Holders(s.threads, e) == {};
    }
  }

  lemma TryKeeps(s: System, th: ThreadId)
    requires Inv(s) && Enabled(s, Try(th))
    ensures Inv(DoTry(s, th))
  {
    var d, limit := s.threads[th].d, s.threads[th].limit;
    EnteredValid(s.monitor, d, limit);
    TryCounts(s, th);
    TryThreads(s, th);
    TryWaiters(s, th);
  }

  lemma TryThreads(s: System, th: ThreadId)
    requires Inv(s) && Enabled(s, Try(th))
    ensures var s' := DoTry(s, th);
      && s'.lowest.Keys == s'.monitor.destinations.Keys
      && (forall o | o in s'.threads && s'.threads[o].Trying? :: s'.threads[o].limit >= 1)
      && (forall o | o in s'.threads && s'.threads[o].Holding? :: s'.threads[o].d in s'.monitor.destinations)
  {
    EnteredColumns(s.monitor, s.threads[th].d, s.threads[th].limit);
  }

  lemma TryCounts(s: System, th: ThreadId)
    requires Inv(s) && Enabled(s, Try(th))
    ensures var s' := DoTry(s, th);
      forall e | e in s'.monitor.destinations ::
        && s'.monitor.destinations[e].active == |Holders(s'.threads, e)|
        && e in s'.lowest && s'.monitor.destinations[e].limit == s'.lowest[e]
  {
    var d, limit, s' := s.threads[th].d, s.threads[th].limit, DoTry(s, th);
    forall e | e in s'.monitor.destinations
      ensures s'.monitor.destinations[e].active == |Holders(s'.threads, e)|
      ensures e in s'.lowest && s'.monitor.destinations[e].limit == s'.lowest[e]
    {
      EnteredCounts(s, th, d, limit, s'.threads[th], e);
    }
  }

  lemma TryWaiters(s: System, th: ThreadId)
    requires Inv(s) && Enabled(s, Try(th))
    ensures var s' := DoTry(s, th);
      forall o | o in s'.threads && s'.threads[o].Waiting? :: WaiterOk(s'.monitor, s'.threads[o])
  {
    var d, limit := s.threads[th].d, s.threads[th].limit;
    if s.monitor.Lowered(d, limit).Full(d) {
      NewWaiter(s.monitor, d, limit);
    }
    forall o | o in s.threads && s.threads[o].Waiting? ensures WaiterOk(s.monitor.Entered(d, limit), s.threads[o]) {
      WaiterStaysEnter(s.monitor, d, limit, s.threads[o]);
    }
  }

  lemma NewWaiter(m: Monitor, d: string, limit: int)
    requires m.Valid() && limit >= 1 && m.Lowered(d, limit).Full(d)
    ensures WaiterOk(m.Entered(d, limit), Waiting(d, limit, m.Lowered(d, limit).destinations[d].changed))
  {}

  lemma ReleaseKeeps(s: System, th: ThreadId)
    requires Inv(s) && Enabled(s, Release(th))
    ensures Inv(Do(s, Release(th)))
  {
    var d := s.threads[th].d;
    var s' := Do(s, Release(th));
    LeftValid(s.monitor, d);
    forall e | e in s'.monitor.destinations
      ensures s'.monitor.destinations[e].active == |Holders(s'.threads, e)|
    {
      HoldersAfter(s.threads, th, Finished, e);
    }
    forall o | o in s'.threads && s'.threads[o].Waiting? ensures WaiterOk(s'.monitor, s'.threads[o]) {
      WaiterStaysLeave(s.monitor, d, s.threads[o]);
    }
  }

  // A thread that holds nothing changes its state without holding anything.
  lemma ThreadMoves(s: System, th: ThreadId, now: Thread)
    requires Inv(s) && (th in s.threads ==> !s.threads[th].Holding?)
    requires now.Finished? || (now.Trying? && now.limit >= 1)
    ensures Inv(s.(threads := s.threads[th := now]))
  {
    forall d ensures |Holders(s.threads[th := now], d)| == |Holders(s.threads, d)| {
      HoldersAfter(s.threads, th, now, d);
    }
  }

  lemma StepKeeps(s: System, step: Step)
    requires Inv(s) && Enabled(s, step)
    ensures Inv(Do(s, step))
  {
    match step
    case Start(th, d, limit) => ThreadMoves(s, th, if d == "" || limit < 1 then Finished else Trying(d, limit));
    case Try(th) => TryKeeps(s, th);
    case Wake(th) => ThreadMoves(s, th, Trying(s.threads[th].d, s.threads[th].limit));
    case Cancel(th) => ThreadMoves(s, th, Finished);
    case Release(th) => ReleaseKeeps(s, th);
    case ReleaseAgain(th) =>
  }

  lemma {:induction false} RunKeeps(s: System, steps: seq<Step>, t: System)
    requires Inv(s) && Runs(s, steps, t)
    ensures Inv(t)
    decreases |steps|
  {
    if steps == [] {
    } else {
      StepKeeps(s, steps[0]);
      RunKeeps(Do(s, steps[0]), steps[1..], t);
    }
  }

  lemma ReachableHolds(s: System)
    requires Reachable(s)
    ensures Inv(s)
  {
    var steps :| Runs(Init(), steps, s);
    RunKeeps(Init(), steps, s);
  }

  // ---------- Acquire among other threads ----------

  lemma {:induction false} RunsJoin(s: System, first: seq<Step>, t: System, second: seq<Step>, u: System)
    requires Runs(s, first, t) && Runs(t, second, u)
    ensures Runs(s, first + second, u)
    decreases |first|
  {
    if first == [] {
      assert first + second == second;
    } else {
      RunsJoin(Do(s, first[0]), first[1..], t, second, u);
      assert (first + second)[1..] == first[1..] + second;
    }
  }

  lemma RunExtends(s: System, steps: seq<Step>, t: System, step: Step)
    requires Runs(s, steps, t) && Enabled(t, step)
    ensures Runs(s, steps + [step], Do(t, step))
  {
    assert [step][1..] == [];
    RunsJoin(s, steps, t, [step], Do(t, step));
  }

  lemma ReachableJoins(s: System, steps: seq<Step>, t: System)
    requires Reachable(s) && Runs(s, steps, t)
    ensures Reachable(t)
  {
    var before :| Runs(Init(), before, s);
    RunsJoin(Init(), before, s, steps, t);
  }

  // Nobody else can change a thread.
  lemma {:induction false} OthersLeaveThread(s: System, steps: seq<Step>, t: System, th: ThreadId)
    requires Runs(s, steps, t) && forall step | step in steps :: step.th != th
    ensures th in t.threads <==> th in s.threads
    ensures th in s.threads ==> t.threads[th] == s.threads[th]
    decreases |steps|
  {
    if steps == [] {
    } else {
      assert steps[0] in steps;
      OthersLeaveThread(Do(s, steps[0]), steps[1..], t, th);
    }
  }

  // The thread has tried, and has neither begun nor released anything.
  ghost predicate TriesOnce(steps: seq<Step>, th: ThreadId) {
    Try(th) in steps && forall step | step in steps && (step.Start? || step.Release?) :: step.th != th
  }

  lemma Tried(first: seq<Step>, second: seq<Step>, th: ThreadId)
    requires forall step | step in first || step in second :: step.Start? || step.Release? ==> step.th != th
    requires Try(th) in first || Try(th) in second
    ensures TriesOnce(first + second, th)
  {}

  // The limiter as its callers share it, and the transition system it is the visible part of.
  class Gate {
    const limiter: CapacityLimiter
    ghost var sys: System

    ghost predicate Valid()
      reads this, limiter
    {
      Reachable(sys) && sys.monitor == limiter.State()
    }

    constructor ()
      ensures Valid() && sys == Init() && fresh(limiter)
    {
      limiter := new CapacityLimiter();
      sys := Init();
      new;
      assert Runs(Init(), [], Init());
    }

    // Whatever the other threads do meanwhile.
    method Others(ghost th: ThreadId) returns (ghost steps: seq<Step>)
      requires Valid()
      modifies this, limiter
      ensures Valid() && Runs(old(sys), steps, sys)
      ensures th in sys.threads <==> th in old(sys).threads
      ensures th in sys.threads ==> sys.threads[th] == old(sys).threads[th]
      ensures forall step | step in steps :: step.th != th
    {
      steps := [];
    }

    // The bookkeeping of one's own step, after `steps`.
    ghost method Took(start: System, steps: seq<Step>, step: Step) returns (more: seq<Step>)
      requires Reachable(sys) && Runs(start, steps, sys) && Enabled(sys, step)
      requires Do(sys, step).monitor == limiter.State()
      modifies this
      ensures Valid() && sys == Do(old(sys), step) && Runs(start, more, sys) && more == steps + [step]
    {
      RunExtends(start, steps, sys, step);
      more := steps + [step];
      assert [step][1..] == [];
      assert Runs(sys, [step], Do(sys, step));
      ReachableJoins(sys, [step], Do(sys, step));
      sys := Do(sys, step);
    }

    // One turn of Acquire's loop: the critical section and, without a grant, the wait. The select
    // follows the channel if it has been closed and is otherwise left for the context's end.
    method Pass(ghost th: ThreadId, d: string, limit: int) returns (granted: bool, woken: bool, ghost steps: seq<Step>)
      requires Valid() && th in sys.threads && sys.threads[th] == Trying(d, limit)
      modifies this, limiter
      ensures Valid() && Runs(old(sys), steps, sys) && th in sys.threads && TriesOnce(steps, th)
      ensures granted ==> sys.threads[th] == Holding(d) && d in limiter.destinations
      ensures granted ==> limiter.destinations[d].active <= limiter.destinations[d].limit <= limit
      ensures !granted ==> sys.threads[th] == if woken then Trying(d, limit) else Finished
    {
      ghost var start := sys;
      steps := Others(th);
      ReachableHolds(sys);
      var changed;
      granted, changed := limiter.Enter(d, limit);
      steps := Took(start, steps, Try(th));
      Tried(steps[..|steps| - 1], [Try(th)], th);
      woken := false;
      if granted {
        return;
      }
      ghost var mid, tried := sys, steps;
      ghost var more := Others(th);
      RunsJoin(start, steps, mid, more, sys);
      woken := changed in limiter.closed;
      ghost var last := if woken then Wake(th) else Cancel(th);
      steps := Took(start, steps + more, last);
      Sequences.Associates(tried, more, [last]);
      Tried(tried, more + [last], th);
    }

    // Acquire, for a context that ends after `patience` turns of the loop at the latest. A grant
    // is returned while it is within the limit; otherwise the thread holds nothing.
    method Acquire(ghost th: ThreadId, d: string, limit: int, patience: nat)
      returns (grant: Grant?, ghost steps: seq<Step>)
      requires Valid() && th !in sys.threads
      modifies this, limiter
      ensures Valid() && Runs(old(sys), steps, sys) && th in sys.threads
      ensures sys.threads[th] == if grant != null then Holding(d) else Finished
      ensures forall step | step in steps && step.Start? && step.th == th :: step == Start(th, d, limit)
      ensures Start(th, d, limit) in steps && Step.Release(th) !in steps
      ensures patience > 0 && d != "" && limit >= 1 ==> Try(th) in steps
      ensures grant != null ==> fresh(grant) && !grant.released && grant.limiter == limiter && grant.destination == d
      ensures grant != null ==> d in limiter.destinations
      ensures grant != null ==> limiter.destinations[d].active <= limiter.destinations[d].limit <= limit
      ensures d == "" || limit < 1 ==> grant == null
    {
      ghost var start := sys;
      steps := Others(th);
      steps := Took(start, steps, Start(th, d, limit));
      if d == "" || limit < 1 {
        return null, steps;
      }
      var left := patience;
      while left > 0
        invariant left <= patience && Valid() && Runs(start, steps, sys)
        invariant th in sys.threads && sys.threads[th] == Trying(d, limit)
        invariant forall step | step in steps && step.Start? && step.th == th :: step == Start(th, d, limit)
        invariant Start(th, d, limit) in steps && Step.Release(th) !in steps
        invariant left < patience ==> Try(th) in steps
      {
        ghost var mid := sys;
        var granted, woken;
        ghost var more;
        granted, woken, more := Pass(th, d, limit);
        RunsJoin(start, steps, mid, more, sys);
        steps := steps + more;
        if granted {
          grant := new Grant(limiter, d);
          return grant, steps;
        }
        if !woken {
          return null, steps;
        }
        left := left - 1;
      }
      steps := Took(start, steps, Cancel(th));
      return null, steps;
    }

    // The release closure, called by whoever holds it.
    method Release(ghost th: ThreadId, grant: Grant) returns (ghost steps: seq<Step>)
      requires Valid() && th in sys.threads && sys.threads[th] == Holding(grant.destination)
      requires grant.limiter == limiter && !grant.released
      modifies this, limiter, grant
      ensures Valid() && Runs(old(sys), steps, sys) && forall step | step in steps && step.Start? :: step.th != th
      ensures th in sys.threads && sys.threads[th] == Finished && grant.released
    {
      ghost var start := sys;
      steps := Others(th);
      ReachableHolds(sys);
      grant.Release();
      steps := Took(start, steps, Step.Release(th));
    }
  }

  // ---------- guarantees ----------

  // No lost wake-up: a thread blocked on an open channel has a holder to wait for, and that
  // holder's release closes the channel.
  lemma NoLostWakeup(s: System, th: ThreadId)
    requires Reachable(s) && th in s.threads && s.threads[th].Waiting? && !Enabled(s, Wake(th))
    ensures var d := s.threads[th].d;
            && d in s.monitor.destinations
            && s.monitor.destinations[d].active >= s.monitor.destinations[d].limit >= 1
            && Holders(s.threads, d) != {}
            && forall h | h in Holders(s.threads, d) :: Enabled(s, Release(h)) && Enabled(Do(s, Release(h)), Wake(th))
  {
    ReachableHolds(s);
    var d := s.threads[th].d;
    assert WaiterOk(s.monitor, s.threads[th]);
    assert |Holders(s.threads, d)| >= 1;
  }

  // No channel is closed twice: whenever a step notifies, the channel it closes is open.
  lemma NoDoubleClose(s: System, step: Step, d: string)
    requires Reachable(s) && Enabled(s, step) && d in s.monitor.destinations
    ensures s.monitor.destinations[d].changed !in s.monitor.closed
    ensures Do(s, step).monitor.closed == s.monitor.closed
      || exists e | e in s.monitor.destinations ::
           Do(s, step).monitor.closed == s.monitor.closed + {s.monitor.destinations[e].changed}
           && s.monitor.destinations[e].changed !in s.monitor.closed
  {
    ReachableHolds(s);
    if step.Try? {
      var e := s.threads[step.th].d;
      if e in s.monitor.destinations && s.threads[step.th].limit < s.monitor.destinations[e].limit {
        assert Do(s, step).monitor.closed == s.monitor.closed + {s.monitor.destinations[e].changed};
      }
    } else if step.Release? {
      var e := s.threads[step.th].d;
      assert Do(s, step).monitor.closed == s.monitor.closed + {s.monitor.destinations[e].changed};
    }
  }

  // `active` counts the outstanding grants, the limit is the smallest one seen, and a grant is
  // only given below it. Other destinations are untouched.
  lemma Accounting(s: System, step: Step, d: string)
    requires Reachable(s) && Enabled(s, step) && d in Do(s, step).monitor.destinations
    ensures var s' := Do(s, step);
            && s'.monitor.destinations[d].active == |Holders(s'.threads, d)|
            && d in s'.lowest && s'.monitor.destinations[d].limit == s'.lowest[d]
            && (step.Try? && s'.threads[step.th] == Holding(d) ==>
                  s'.monitor.destinations[d].active <= s'.monitor.destinations[d].limit)
            && (step.th in s.threads && (s.threads[step.th].Finished? || s.threads[step.th].d != d) ==>
                  d in s.monitor.destinations && s'.monitor.destinations[d] == s.monitor.destinations[d])
            && (step.Cancel? || step.ReleaseAgain? ==> s'.monitor == s.monitor)
  {
    ReachableHolds(s);
    StepKeeps(s, step);
    Untouched(s, step, d);
  }

  lemma Untouched(s: System, step: Step, d: string)
    requires Inv(s) && Enabled(s, step) && d in Do(s, step).monitor.destinations
    ensures step.th in s.threads && (s.threads[step.th].Finished? || s.threads[step.th].d != d) ==>
      d in s.monitor.destinations && Do(s, step).monitor.destinations[d] == s.monitor.destinations[d]
    ensures step.Try? && Do(s, step).threads[step.th] == Holding(d) ==>
      Do(s, step).monitor.destinations[d].active <= Do(s, step).monitor.destinations[d].limit
  {}

  // A destination is over its limit only because a smaller limit arrived, and while it is over,
  // its count can only fall.
  lemma OverLimitOnlyFalls(s: System, step: Step, d: string)
    requires Enabled(s, step) && d in s.monitor.destinations
    ensures d in Do(s, step).monitor.destinations
    ensures var before, after := s.monitor.destinations[d], Do(s, step).monitor.destinations[d];
            && after.limit <= before.limit
            && (before.active > before.limit ==> after.active <= before.active)
            && (before.active <= before.limit && after.active > after.limit ==>
                  step.Try? && s.threads[step.th].d == d && after.limit == s.threads[step.th].limit < before.limit)
  {}

  // ---------- every waiter can be served ----------

  // Releasing the destination's holders one by one closes every open channel on the way and
  // leaves the destination empty.
  lemma {:induction false} ReleaseAll(s: System, th: ThreadId) returns (steps: seq<Step>, t: System)
    requires Inv(s) && th in s.threads && s.threads[th].Waiting?
    ensures Runs(s, steps, t) && Inv(t) && forall step | step in steps :: step.Release?
    ensures th in t.threads && t.threads[th] == s.threads[th] && Holders(t.threads, s.threads[th].d) == {}
    decreases |Holders(s.threads, s.threads[th].d)|
  {
    var d := s.threads[th].d;
    if Holders(s.threads, d) == {} {
      steps, t := [], s;
    } else {
      var h :| h in Holders(s.threads, d);
      StepKeeps(s, Release(h));
      HoldersAfter(s.threads, h, Finished, d);
      var rest;
      rest, t := ReleaseAll(Do(s, Release(h)), th);
      steps := [Release(h)] + rest;
      assert steps[1..] == rest;
    }
  }

  // From every reachable state a waiting thread is admitted after some releases by the holders of
  // its destination.
  lemma WaiterCanBeAdmitted(s: System, th: ThreadId)
    requires Reachable(s) && th in s.threads && s.threads[th].Waiting?
    ensures exists releases: seq<Step>, mid, t ::
      && (forall step | step in releases :: step.Release?)
      && Runs(s, releases, mid) && Runs(mid, [Wake(th), Try(th)], t)
      && th in t.threads && t.threads[th] == Holding(s.threads[th].d)
  {
    ReachableHolds(s);
    var releases, mid := ReleaseAll(s, th);
    assert WaiterOk(mid.monitor, mid.threads[th]);
    assert Enabled(mid, Wake(th));
    var awake := Do(mid, Wake(th));
    var t := Do(awake, Try(th));
    assert [Wake(th), Try(th)][1..] == [Try(th)] && [Try(th)][1..] == [];
    assert Runs(mid, [Wake(th), Try(th)], t);
  }
}
