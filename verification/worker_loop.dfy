/** The worker's loop over its deliveries (internal/app/bootstrap.go): each message goes through
    Handle, and the disposition decides between acknowledging and requeueing its copy. */
module WorkerLoop {
  import opened Wrappers
  import opened Rows
  import opened Tables
  import opened Notification
  import opened Protocol
  import opened Invariant
  import opened Joint
  import opened Programs
  import Limiter

  // The task has left the generation this message announces, or has been deleted.
  ghost predicate Spent(s: State, message: Message) {
    message.event in s.born && Settled(Row(s.db.tasks, message.task), s.born[message.event].generation)
  }

  lemma AckedIsSpent(s: State, w: Token)
    requires Reachable(s) && w in s.workers && s.workers[w].progress == Done(Ack)
    ensures Spent(Do(s, Dispose(w)), s.workers[w].message)
  {
    AckedWasSpent(s, w);
    DisposeKeepsTables(s, w);
  }

  lemma AckedWasSpent(s: State, w: Token)
    requires Reachable(s) && w in s.workers && s.workers[w].progress == Done(Ack)
    ensures Spent(s, s.workers[w].message)
  {
    ReachableHolds(s);
    DoneIsSettled(s, w);
  }

  lemma DisposeKeepsTables(s: State, w: Token)
    requires w in s.workers && s.workers[w].progress.Done?
    ensures Do(s, Dispose(w)).db == s.db && Do(s, Dispose(w)).born == s.born
  {}

  // A copy that the session still holds goes, or goes back to the queue.
  lemma DisposedCopies(s: State, w: Token, disposition: Disposition)
    requires w in s.workers && s.workers[w].progress == Done(disposition) && disposition != Reject
    ensures var tag, after := s.workers[w].tag, Do(s, Dispose(w)).copies;
      after ==
        if tag !in s.copies || s.copies[tag].holder != Some(w) then s.copies
        else if disposition == Ack then map other | other in s.copies && other != tag :: s.copies[other]
        else s.copies[tag := Copy(s.copies[tag].message, None)]
    ensures w !in Do(s, Dispose(w)).workers
  {}

  // Only others have taken steps of the protocol.
  lemma OthersHappened(s: State, g: Limiter.System, steps: seq<Step>, t: State,
                       lease: Token, th: Limiter.ThreadId, draw: real)
    requires Runs(s, steps, t) && forall step | step in steps :: !ByWorker(step, lease)
    ensures Happened(s, g, AllSteps(steps), t, g, lease, th, draw, [])
  {
    OthersTogether(s, g, steps, t, lease, th, draw);
    OnlySteps(steps);
    NoOwnWork(steps, lease);
  }

  class Consumer {
    const service: DeliveryService

    constructor (service: DeliveryService)
      ensures this.service == service
    {
      this.service := service;
    }

    // Ack, or Nack with requeue, of the copy `tag`. `before` is the state in which the broker
    // settles it.
    method Settle(lease: Token, ghost th: Limiter.ThreadId, ghost draw: real, ghost tag: Tag, message: Message,
                  disposition: Disposition)
      returns (ghost before: State, ghost history: seq<Moment>)
      requires service.world.Valid() && disposition != Reject && lease in service.world.sys.workers
      requires service.world.sys.workers[lease] == Worker(tag, message, Done(disposition))
      modifies service.world, service.world.database
      ensures service.world.Valid()
      ensures Happened(old(service.world.sys), service.gate.sys, history, before, service.gate.sys, lease, th, draw, [])
      ensures lease in before.workers && before.workers[lease] == Worker(tag, message, Done(disposition))
      ensures service.world.sys == Do(before, Dispose(lease)) && lease !in service.world.sys.workers
      ensures service.world.sys.copies ==
        if tag !in before.copies || before.copies[tag].holder != Some(lease) then before.copies
        else if disposition == Ack then map other | other in before.copies && other != tag :: before.copies[other]
        else before.copies[tag := Copy(before.copies[tag].message, None)]
      ensures disposition == Ack ==> Spent(service.world.sys, message)
    {
      ghost var start := service.world.sys;
      ghost var steps := service.world.Meanwhile(lease);
      before := service.world.sys;
      OthersHappened(start, service.gate.sys, steps, before, lease, th, draw);
      history := AllSteps(steps);
      DisposedCopies(before, lease, disposition);
      if disposition == Ack {
        AckedIsSpent(before, lease);
      }
      service.world.Took(Dispose(lease));
    }

    // One turn of the loop, for the copy `tag` that session `lease` holds. `history` leads to
    // `before`, the state in which the broker settles the copy, and `own` is what the session did
    // until then.
    method Turn(lease: Token, ghost th: Limiter.ThreadId, ghost tag: Tag, message: Message, env: Surroundings)
      returns (disposition: Disposition, ghost admitted: bool, ghost own: seq<Step>, ghost before: State,
               ghost history: seq<Moment>)
      requires service.world.Valid() && SenderMayReturn(env.result)
      requires lease in service.world.sys.workers
      requires service.world.sys.workers[lease] == Worker(tag, message, Received)
      requires service.gate.Valid() && th !in service.gate.sys.threads
      modifies service.world, service.world.database, service.gate, service.gate.limiter
      ensures service.world.Valid() && service.gate.Valid()
      ensures Happened(old(service.world.sys), old(service.gate.sys), history, before, service.gate.sys,
                       lease, th, env.draw, own)
      ensures HandleWork(own, lease, env, admitted) && Through(service.gate.sys, th)
      ensures disposition != Reject && (disposition == Ack <==> MayAcknowledge(own, env))
      ensures lease in before.workers && before.workers[lease] == Worker(tag, message, Done(disposition))
      ensures service.world.sys == Do(before, Dispose(lease)) && lease !in service.world.sys.workers
      ensures service.world.sys.copies ==
        if tag !in before.copies || before.copies[tag].holder != Some(lease) then before.copies
        else if disposition == Ack then map other | other in before.copies && other != tag :: before.copies[other]
        else before.copies[tag := Copy(before.copies[tag].message, None)]
      ensures disposition == Ack ==> Spent(service.world.sys, message)
    {
      ghost var start, free := service.world.sys, service.gate.sys;
      disposition, admitted, own, history := service.Handle(lease, th, message, env);
      ghost var mid := service.world.sys;
      ghost var more;
      before, more := Settle(lease, th, env.draw, tag, message, disposition);
      HappenedJoins(start, free, history, mid, service.gate.sys, more, before, service.gate.sys,
                    lease, th, env.draw, own, []);
      history := history + more;
      assert own + [] == own;
    }
  }
}
