/** The scheduler's pass, an operator's replay and a retention batch over the shared world: each
    commits exactly one protocol step or none, whatever fails and whatever its caller is told. */
module Maintenance {
  import opened Wrappers
  import opened Notification
  import opened Rows
  import opened Tables
  import opened Protocol
  import opened Ordering
  import opened Selection
  import opened Store
  import opened Programs

  class Jobs {
    const world: World

    constructor (world: World)
      ensures this.world == world
    {
      this.world := world;
    }

    method SchedulePass(now: Time, limit: nat, locked: set<TaskId>, failAt: Option<nat>, commit: Fault)
      returns (result: ScheduleResult, failed: bool, ghost rows: seq<TaskId>)
      requires world.Valid()
      modifies world, world.database
      ensures world.Valid() && Selected(old(world.sys).db, now, limit, locked, rows)
      ensures Enabled(old(world.sys), Step.ScheduleDue(now, rows))
      ensures world.sys == old(world.sys) || world.sys == Do(old(world.sys), Step.ScheduleDue(now, rows))
      ensures !failed ==>
        && world.sys == Do(old(world.sys), Step.ScheduleDue(now, rows))
        && result.scheduled + result.dead == |rows|
        && result.dead == |Moved(rows, old(world.sys).db.tasks, world.sys.db.tasks, {RetryWait, Delivering}, Dead)|
        && result.recovered == |Moved(rows, old(world.sys).db.tasks, world.sys.db.tasks, {Delivering}, Pending)|
    {
      result, failed, rows := world.database.ScheduleDue(now, limit, locked, failAt, commit);
      SelectedAreDue(world.sys.db, now, limit, locked, rows);
      CountersCount(world.sys.db, rows, now);
      if (failAt.None? || failAt.value >= |rows|) && commit != Lost {
        world.Took(Step.ScheduleDue(now, rows));
      }
    }

    // `event` is the number drawn for the new event's id.
    method Replay(id: TaskId, now: Time, event: nat, updateFails: bool, insertFails: bool, commit: Fault)
      returns (reply: UpdateReply)
      requires world.Valid() && Drawn(event) !in world.sys.born
      modifies world, world.database
      ensures world.Valid()
      ensures world.sys == old(world.sys) || world.sys == Do(old(world.sys), Step.Replay(id, now, Drawn(event)))
      ensures reply == Affected(true) ==>
        && world.sys == Do(old(world.sys), Step.Replay(id, now, Drawn(event)))
        && id in old(world.sys).db.tasks && old(world.sys).db.tasks[id].status == Dead
        && id in world.sys.db.tasks && world.sys.db.tasks[id].status == Pending
        && Drawn(event) in world.sys.db.events
        && world.sys.db.events[Drawn(event)] == NewEvent(id, world.sys.db.tasks[id].generation, now)
      ensures reply == Affected(false) ==>
        world.sys == old(world.sys) && (id in world.sys.db.tasks ==> world.sys.db.tasks[id].status != Dead)
    {
      var dead := id in world.database.tasks && world.database.tasks[id].status == Dead;
      reply := world.database.ReplayDeadAtomic(id, now, Drawn(event), updateFails, insertFails, commit);
      if dead && !updateFails && !insertFails && commit != Lost {
        world.Took(Step.Replay(id, now, Drawn(event)));
      }
    }

    method Retain(cutoff: Time, limit: nat, locked: set<TaskId>, fault: Fault)
      returns (count: Option<nat>, ghost rows: seq<TaskId>)
      requires world.Valid()
      modifies world, world.database
      ensures world.Valid() && TopOf(TerminalKeys(old(world.sys).db, cutoff, locked), limit, rows)
      ensures Enabled(old(world.sys), DeleteTerminal(cutoff, Ids(rows)))
      ensures world.sys ==
        if fault == Lost then old(world.sys) else Do(old(world.sys), DeleteTerminal(cutoff, Ids(rows)))
      ensures count == if fault == Answered then Some(|rows|) else None
    {
      count, rows := world.database.DeleteTerminalBefore(cutoff, limit, locked, fault);
      if fault != Lost {
        world.Took(DeleteTerminal(cutoff, Ids(rows)));
      }
    }
  }
}
