/** The reference state machine is exact: its edges are the status changes that committed steps make,
    but for the scheduler's lease recovery, which takes two edges at once. */
module Machine {
  import opened Wrappers
  import opened Notification
  import opened Rows
  import opened Tables
  import opened Ledgers
  import opened Protocol
  import opened Invariant
  import Guarantees
  import Programs
  import Progress

  // The step takes the task from one status to the other.
  ghost predicate Takes(s: State, step: Step, id: TaskId, from: Status, to: Status) {
    && Reachable(s) && Enabled(s, step)
    && id in s.db.tasks && s.db.tasks[id].status == from
    && id in Do(s, step).db.tasks && Do(s, step).db.tasks[id].status == to
  }

  // Some step of some run takes some task along the edge, and is no lease recovery.
  ghost predicate Taken(from: Status, to: Status) {
    exists s, step, id :: Takes(s, step, id, from, to) && !(step.ScheduleDue? && from == Delivering && to == Pending)
  }

  lemma EdgesAreTaken(from: Status, to: Status)
    requires from != to
    ensures CanTransition(from, to) <==> Taken(from, to)
  {
    if CanTransition(from, to) {
      var s, step := Witness(from, to);
      assert Takes(s, step, 0, from, to);
    }
    forall s, step, id | Takes(s, step, id, from, to) && !(step.ScheduleDue? && from == Delivering && to == Pending)
      ensures CanTransition(from, to)
    {
      ReachableHolds(s);
      Guarantees.StatusFollowsMachine(s, step, id);
    }
  }

  // ---------- a run for each edge ----------

  const REQUEST := Request("caller", "key", "hash", "destination", 1, RetryPolicy(2, 1000, [10]), 0)

  lemma Witness(from: Status, to: Status) returns (s: State, step: Step)
    requires CanTransition(from, to)
    ensures Takes(s, step, 0, from, to)
  {
    match from
    case Pending => s, step := PendingTaken();
    case Delivering => s, step := DeliveringTaken(to);
    case RetryWait => s, step := WaitTaken(to);
    case Dead => s, step := DeadTaken();
  }

  lemma PendingTaken() returns (s: State, step: Step)
    ensures Takes(s, step, 0, Pending, Delivering)
  {
    s := AtReceipt();
    step := Claim(0, 60, 0, Answered);
    ClaimTaken(s);
  }

  lemma DeliveringTaken(to: Status) returns (s: State, step: Step)
    requires CanTransition(Delivering, to)
    ensures Takes(s, step, 0, Delivering, to)
  {
    s := AtAnswer(AnswerFor(to));
    step := Apply(0, 1, 10, Answered);
    ResultTaken(s, AnswerFor(to));
  }

  // An answer that takes a leased task there.
  function AnswerFor(to: Status): (result: SendResult)
    ensures SenderMayReturn(result) && result.retryAfter.None?
    ensures to == Delivered ==> result.outcome == Succeeded
    ensures to == RetryWait ==> result.outcome == Retryable
    ensures to != Delivered && to != RetryWait ==> result.outcome == Permanent
  {
    match to
    case Delivered => Progress.ACCEPTED
    case RetryWait => SendResult(Retryable, 500, "", "", None)
    case _ => SendResult(Permanent, 400, "", "", None)
  }

  lemma WaitTaken(to: Status) returns (s: State, step: Step)
    requires CanTransition(RetryWait, to)
    ensures Takes(s, step, 0, RetryWait, to)
  {
    s := Waiting();
    step := if to == Pending then ScheduleDue(11, [0]) else ScheduleDue(1000, [0]);
    PassOne(s, step.now);
  }

  lemma DeadTaken() returns (s: State, step: Step)
    ensures Takes(s, step, 0, Dead, Pending)
  {
    s := GivenUp();
    step := Replay(0, 5, Drawn(1));
    ReplayTaken(s);
  }

  lemma Next(s: State, step: Step) returns (t: State)
    requires Reachable(s) && Enabled(s, step)
    ensures Reachable(t) && t == Do(s, step)
  {
    t := Do(s, step);
    Programs.ReachableStep(s, step);
  }

  // The task has been created and its event claimed.
  lemma AtClaim() returns (s: State)
    ensures Reachable(s) && 0 in s.ledgers && 0 in s.db.tasks && s.db.tasks[0] == NewTask(REQUEST)
    ensures s.born.Keys == {Drawn(0)} && s.workers == map[] && s.copies == map[] && s.leases == {}
    ensures s.publishers == map[0 := Publisher([Message(Drawn(0), 0)], 0, false, 0)]
  {
    assert Runs(Init(), [], Init());
    var created := Next(Init(), Step.Create(0, REQUEST, Drawn(0)));
    s := Next(created, Step.ClaimOutbox(0, [Drawn(0)], 0, 60, Answered));
    assert s.publishers[0].batch == [Message(Drawn(0), 0)];
  }

  // It has been published, and received by session 0.
  lemma AtReceipt() returns (s: State)
    ensures Reachable(s) && 0 in s.ledgers && 0 in s.db.tasks && s.db.tasks[0] == NewTask(REQUEST)
    ensures s.born.Keys == {Drawn(0)}
    ensures s.workers == map[0 := Worker(0, Message(Drawn(0), 0), Received)]
  {
    var claimed := AtClaim();
    var published := Next(claimed, Publish(0, 0, true, true));
    s := Next(published, Receive(0, 0));
    Handed(claimed);
  }

  lemma Handed(s: State)
    requires s.publishers == map[0 := Publisher([Message(Drawn(0), 0)], 0, false, 0)] && s.workers == map[]
    ensures var t := DoReceive(DoPublish(s, 0, 0, true, true), 0, 0);
      && t.db == s.db && t.ledgers == s.ledgers && t.born == s.born
      && t.workers == map[0 := Worker(0, Message(Drawn(0), 0), Received)]
  {}

  lemma ClaimTaken(s: State)
    requires 0 in s.ledgers && 0 in s.db.tasks && s.db.tasks[0] == NewTask(REQUEST)
    requires s.workers == map[0 := Worker(0, Message(Drawn(0), 0), Received)]
    ensures var t, row := DoClaim(s, 0, 60, 0, Answered), ClaimRow(NewTask(REQUEST), 0, 60, 0);
      && 0 in t.ledgers && t.born == s.born && t.db.tasks == s.db.tasks[0 := row]
      && t.workers == map[0 := Worker(0, Message(Drawn(0), 0), Claimed(row))]
  {}

  // The supplier has answered its claim.
  lemma AtAnswer(result: SendResult) returns (s: State)
    requires SenderMayReturn(result)
    ensures Reachable(s) && 0 in s.ledgers && 0 in s.db.tasks && s.db.tasks[0] == ClaimRow(NewTask(REQUEST), 0, 60, 0)
    ensures s.born.Keys == {Drawn(0)}
    ensures s.workers == map[0 := Worker(0, Message(Drawn(0), 0), Answer(s.db.tasks[0], result))]
  {
    var admitted := AtAdmission();
    SendTaken(admitted, result);
    s := Next(admitted, Send(0, result));
  }

  lemma AtAdmission() returns (s: State)
    ensures Reachable(s) && 0 in s.ledgers && 0 in s.db.tasks && s.db.tasks[0] == ClaimRow(NewTask(REQUEST), 0, 60, 0)
    ensures s.born.Keys == {Drawn(0)}
    ensures s.workers == map[0 := Worker(0, Message(Drawn(0), 0), Admitted(s.db.tasks[0]))]
  {
    var received := AtReceipt();
    ClaimTaken(received);
    var claimed := Next(received, Claim(0, 60, 0, Answered));
    AdmitTaken(claimed);
    s := Next(claimed, Admit(0, true));
  }

  lemma AdmitTaken(s: State)
    requires 0 in s.db.tasks && s.workers == map[0 := Worker(0, Message(Drawn(0), 0), Claimed(s.db.tasks[0]))]
    ensures Enabled(s, Admit(0, true))
    ensures Do(s, Admit(0, true)) ==
      s.(workers := map[0 := Worker(0, Message(Drawn(0), 0), Admitted(s.db.tasks[0]))])
  {}

  lemma SendTaken(s: State, result: SendResult)
    requires 0 in s.ledgers && 0 in s.db.tasks && SenderMayReturn(result)
    requires s.workers == map[0 := Worker(0, Message(Drawn(0), 0), Admitted(s.db.tasks[0]))]
    ensures Enabled(s, Send(0, result))
    ensures var t := DoSend(s, 0, result);
      && 0 in t.ledgers && t.db == s.db && t.born == s.born
      && t.workers == map[0 := Worker(0, Message(Drawn(0), 0), Answer(s.db.tasks[0], result))]
  {}

  lemma ResultTaken(s: State, result: SendResult)
    requires 0 in s.ledgers && 0 in s.db.tasks && s.db.tasks[0] == ClaimRow(NewTask(REQUEST), 0, 60, 0)
    requires s.workers == map[0 := Worker(0, Message(Drawn(0), 0), Answer(s.db.tasks[0], result))]
    ensures var t := DoApply(s, 0, 1, 10, Answered);
      && 0 in t.ledgers && t.born == s.born && 0 in t.db.tasks
      && t.db.tasks[0].request == REQUEST && t.db.tasks[0].attempts == 1
      && t.db.tasks[0].status == (match result.outcome
           case Succeeded => Delivered
           case Permanent => Dead
           case Retryable => if result.retryAfter.None? then RetryWait else t.db.tasks[0].status)
      && (result.outcome == Retryable && result.retryAfter.None? ==> t.db.tasks[0].nextAttemptAt == Some(11))
  {}

  lemma Waiting() returns (s: State)
    ensures Reachable(s) && 0 in s.ledgers && 0 in s.db.tasks
    ensures var t := s.db.tasks[0];
      t.request == REQUEST && t.status == RetryWait && t.attempts == 1 && t.nextAttemptAt == Some(11)
  {
    var answered := AtAnswer(AnswerFor(RetryWait));
    ResultTaken(answered, AnswerFor(RetryWait));
    s := Next(answered, Apply(0, 1, 10, Answered));
  }

  lemma GivenUp() returns (s: State)
    ensures Reachable(s) && 0 in s.ledgers && 0 in s.db.tasks && s.db.tasks[0].status == Dead
    ensures s.born.Keys == {Drawn(0)}
  {
    var answered := AtAnswer(AnswerFor(Dead));
    ResultTaken(answered, AnswerFor(Dead));
    s := Next(answered, Apply(0, 1, 10, Answered));
  }

  lemma ReplayTaken(s: State)
    requires 0 in s.ledgers && 0 in s.db.tasks && s.db.tasks[0].status == Dead && s.born.Keys == {Drawn(0)}
    ensures Enabled(s, Replay(0, 5, Drawn(1)))
    ensures var tasks := DoReplay(s, 0, 5, Drawn(1)).db.tasks; 0 in tasks && tasks[0].status == Pending
  {}

  // A pass over task 0 alone.
  lemma PassOne(s: State, now: Time)
    requires 0 in s.ledgers && 0 in s.db.tasks && Due(s.db.tasks[0], now)
    ensures Enabled(s, ScheduleDue(now, [0])) && 0 in DoSchedule(s, [0], now).db.tasks
    ensures DoSchedule(s, [0], now).db.tasks[0] == ScheduleRow(s.db.tasks[0], now)
  {
    assert [0][..0] == [];
    assert DoSchedule(s, [0], now) == DoScheduleOne(DoSchedule(s, [], now), 0, now);
  }
}
