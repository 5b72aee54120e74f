/** outbox.Service.RunOnce over the shared world: claim a batch, then publish and mark event by
    event, with other participants acting between any two statements. */
module OutboxService {
  import opened Wrappers
  import opened Notification
  import opened Rows
  import opened Tables
  import opened Protocol
  import opened Origins
  import opened Ordering
  import opened Selection
  import opened Store
  import opened Programs
  import Progress
  import Confirms

  // ---------- what a publisher session achieves in a run ----------

  // The events it claimed, the messages it handed to the broker client, how many of its marks were
  // committed, and how many rows they changed.
  datatype Yield = Yield(claimed: seq<EventId>, handed: seq<Message>, marked: nat, marks: nat)

  const NOTHING := Yield([], [], 0, 0)

  // Session p's mark of the event would change its row.
  ghost predicate Matches(s: State, p: Token, event: EventId) {
    event in s.db.events && MarkMatches(s.db.events[event], p)
  }

  // `got`, and what session p achieves by the step.
  ghost function StepYield(s: State, step: Step, p: Token, got: Yield): Yield
    requires Enabled(s, step)
  {
    if !ByPublisher(step, p) then got
    else if step.ClaimOutbox? then got.(claimed := got.claimed + step.events)
    else if step.Publish? then got.(handed := got.handed + [s.publishers[p].batch[s.publishers[p].next]])
    else if step.MarkPublished? && step.fault != Lost then
      got.(marked := got.marked + 1,
           marks := got.marks
             + if Matches(s, p, s.publishers[p].batch[s.publishers[p].next].event) then 1 else 0)
    else got
  }

  ghost function RunYield(s: State, steps: seq<Step>, t: State, p: Token, got: Yield): Yield
    requires Runs(s, steps, t)
    decreases |steps|
  {
    if steps == [] then got
    else RunYield(Do(s, steps[0]), steps[1..], t, p, StepYield(s, steps[0], p, got))
  }

  // Every mark of session p in the run met a row that was still its own.
  ghost predicate KeepsClaims(s: State, steps: seq<Step>, t: State, p: Token)
    requires Runs(s, steps, t)
    decreases |steps|
  {
    steps != [] ==>
      && (steps[0].MarkPublished? && steps[0].publisher == p ==>
            var e := s.publishers[p].batch[s.publishers[p].next].event;
            e in s.db.events && s.db.events[e].claimToken == Some(p) && s.db.events[e].publishedAt.None?)
      && KeepsClaims(Do(s, steps[0]), steps[1..], t, p)
  }

  // Up to the limit, the oldest unlocked rows that are unpublished and unclaimed or whose claim has
  // run out.
  ghost predicate FirstClaimable(db: DB, now: Time, limit: nat, locked: set<EventId>, text: EventId -> nat,
                                 events: seq<EventId>) {
    && |events| <= limit
    && (forall e | e in events :: e in db.events && e !in locked && db.events[e].publishedAt.None?
          && (db.events[e].claimUntil.None? || db.events[e].claimUntil.value < now))
    && (forall e | e in db.events && e !in locked && e !in events && db.events[e].publishedAt.None?
          && (db.events[e].claimUntil.None? || db.events[e].claimUntil.value < now) ::
          |events| == limit && forall r | r in events :: OlderEvent(db.events, text, r, e))
  }

  lemma ChosenAreFirst(db: DB, now: Time, limit: nat, locked: set<EventId>, text: EventId -> nat,
                       chosen: seq<EventId>, events: seq<EventId>)
    requires TopOf(ClaimKeys(db, now, locked, text), limit, chosen) && Reordered(chosen, events)
    ensures FirstClaimable(db, now, limit, locked, text, events)
  {
    ClaimableByColumns(db, now, limit, locked, text, chosen);
  }

  // The session's claim: the run before it, the state it met, and the rows it took.
  datatype FirstClaim = FirstClaim(earlier: seq<Step>, met: State, rows: seq<EventId>)

  // The run begins with the claim, made as asked for.
  ghost predicate ClaimsFirst(start: State, claim: FirstClaim, steps: seq<Step>, p: Token, now: Time, until: Time,
                              fault: Fault, limit: nat, locked: set<EventId>, text: EventId -> nat) {
    && Runs(start, claim.earlier, claim.met)
    && claim.earlier + [Step.ClaimOutbox(p, claim.rows, now, until, fault)] <= steps
    && FirstClaimable(claim.met.db, now, limit, locked, text, claim.rows)
  }

  lemma {:induction false} YieldJoins(
      s: State, first: seq<Step>, t: State, second: seq<Step>, u: State, p: Token, got: Yield)
    requires Runs(s, first, t) && Runs(t, second, u)
    ensures Runs(s, first + second, u)
    ensures RunYield(s, first + second, u, p, got) == RunYield(t, second, u, p, RunYield(s, first, t, p, got))
    decreases |first|
  {
    RunsJoin(s, first, t, second, u);
    if first == [] {
      assert first + second == second;
    } else {
      YieldJoins(Do(s, first[0]), first[1..], t, second, u, p, StepYield(s, first[0], p, got));
      assert (first + second)[1..] == first[1..] + second;
    }
  }

  // One more step at the end of a run.
  lemma YieldExtends(s: State, steps: seq<Step>, t: State, step: Step, p: Token, got: Yield)
    requires Runs(s, steps, t) && Enabled(t, step)
    ensures Runs(s, steps + [step], Do(t, step))
    ensures RunYield(s, steps + [step], Do(t, step), p, got) == StepYield(t, step, p, RunYield(s, steps, t, p, got))
  {
    Progress.OneStep(t, step);
    YieldJoins(s, steps, t, [step], Do(t, step), p, got);
    assert [step][1..] == [];
  }

  lemma {:induction false} OthersYieldNothing(s: State, steps: seq<Step>, t: State, p: Token, got: Yield)
    requires Runs(s, steps, t) && forall step | step in steps :: !ByPublisher(step, p)
    ensures RunYield(s, steps, t, p, got) == got
    decreases |steps|
  {
    if steps == [] {
    } else {
      assert steps[0] in steps;
      OthersYieldNothing(Do(s, steps[0]), steps[1..], t, p, got);
    }
  }

  // If the session keeps its claims, all its committed marks change their rows.
  lemma {:induction false} KeptClaimsAreMarked(s: State, steps: seq<Step>, t: State, p: Token, got: Yield)
    requires Runs(s, steps, t) && KeepsClaims(s, steps, t, p)
    ensures var all := RunYield(s, steps, t, p, got); all.marks - got.marks == all.marked - got.marked
    decreases |steps|
  {
    if steps == [] {
    } else {
      KeptClaimsAreMarked(Do(s, steps[0]), steps[1..], t, p, StepYield(s, steps[0], p, got));
    }
  }

  // A claim token nobody else can draw stays unused.
  lemma {:induction false} TokenStaysFresh(s: State, steps: seq<Step>, t: State, p: Token)
    requires Runs(s, steps, t) && p !in s.claims && forall step | step in steps :: !ByPublisher(step, p)
    ensures p !in t.claims
    decreases |steps|
  {
    if steps == [] {
    } else {
      assert steps[0] in steps;
      TokenFreshAfter(s, steps[0], p);
      TokenStaysFresh(Do(s, steps[0]), steps[1..], t, p);
    }
  }

  lemma TokenFreshAfter(s: State, step: Step, p: Token)
    requires Enabled(s, step) && p !in s.claims && !ByPublisher(step, p)
    ensures p !in Do(s, step).claims
  {
    if step.ScheduleDue? {
      ScheduleOnly(s, step.rows, step.now);
    }
  }

  // ---------- what is claimed ----------

  // The messages of claimed rows.
  function Batch(claimed: seq<ClaimedEvent>): (r: seq<Message>)
    ensures |r| == |claimed| && forall i | 0 <= i < |r| :: r[i] == Message(claimed[i].id, claimed[i].aggregate)
  {
    seq(|claimed|, i requires 0 <= i < |claimed| => Message(claimed[i].id, claimed[i].aggregate))
  }

  function Events(batch: seq<Message>): (r: seq<EventId>)
    ensures |r| == |batch| && forall i | 0 <= i < |r| :: r[i] == batch[i].event
  {
    seq(|batch|, i requires 0 <= i < |batch| => batch[i].event)
  }

  // ---------- the session after each of its own steps ----------

  // The session is about to publish batch[next].
  predicate At(session: Publisher, batch: seq<Message>, next: nat) {
    session.batch == batch && session.next == next && !session.confirmed
  }

  // Nothing is handed over yet, and the session stands before the batch it was answered.
  ghost predicate Begins(total: Yield, p: Token, claimed: Option<seq<ClaimedEvent>>, t: State) {
    && total.handed == [] && total.marked == 0 && total.marks == 0
    && (claimed.Some? ==>
          && total.claimed == Events(Batch(claimed.value))
          && p in t.publishers && At(t.publishers[p], Batch(claimed.value), 0))
  }

  // The session begins with the batch it is answered.
  lemma ClaimYields(s: State, step: Step, claimed: Option<seq<ClaimedEvent>>)
    requires step.ClaimOutbox? && Enabled(s, step) && (step.fault != Answered <==> claimed.None?)
    requires claimed.Some? ==> |claimed.value| == |step.events| && forall i | 0 <= i < |step.events| ::
      (step.events[i] in s.db.events
       && claimed.value[i] == ClaimedEvent(step.events[i], s.db.events[step.events[i]].aggregate))
    ensures Begins(StepYield(s, step, step.publisher, NOTHING), step.publisher, claimed, Do(s, step))
  {
    if claimed.Some? {
      assert step.events == Events(Batch(claimed.value));
      assert DoClaimOutbox(s, step.publisher, step.events, step.until, step.fault).publishers[step.publisher].batch
          == Batch(claimed.value);
    }
  }

  // The whole run up to the session's claim.
  lemma ClaimHappens(start: State, first: seq<Step>, s: State, step: Step, claimed: Option<seq<ClaimedEvent>>)
    requires step.ClaimOutbox? && Runs(start, first, s) && Enabled(s, step)
    requires RunYield(start, first, s, step.publisher, NOTHING) == NOTHING
    requires forall other | other in first :: !ByPublisher(other, step.publisher)
    requires step.fault != Answered <==> claimed.None?
    requires claimed.Some? ==> |claimed.value| == |step.events| && forall i | 0 <= i < |step.events| ::
      (step.events[i] in s.db.events
       && claimed.value[i] == ClaimedEvent(step.events[i], s.db.events[step.events[i]].aggregate))
    ensures var t, steps := Do(s, step), first + [step];
      && Runs(start, steps, t)
      && Begins(RunYield(start, steps, t, step.publisher, NOTHING), step.publisher, claimed, t)
  {
    YieldExtends(start, first, s, step, step.publisher, NOTHING);
    ClaimYields(s, step, claimed);
  }

  lemma ClaimIsStep(s: State, step: Step, db: DB)
    requires step.ClaimOutbox? && step.publisher !in s.claims && ClaimableRows(s.db, step.events, step.now)
    requires step.fault != Lost && db == Tables.ClaimOutbox(s.db, step.events, step.publisher, step.until)
    ensures Enabled(s, step) && Statement(s, step) == db
  {}

  lemma PublishedSession(s: State, p: Token, tag: Tag, arrives: bool, confirmed: bool, got: Yield)
    requires Enabled(s, Publish(p, tag, arrives, confirmed))
    ensures StepYield(s, Publish(p, tag, arrives, confirmed), p, got) ==
      got.(handed := got.handed + [s.publishers[p].batch[s.publishers[p].next]])
    ensures confirmed ==>
      var publishers := DoPublish(s, p, tag, arrives, confirmed).publishers;
      p in publishers && publishers[p] == s.publishers[p].(confirmed := true)
  {}

  lemma MarkedSession(s: State, p: Token, at: Time, fault: Fault, event: EventId, got: Yield)
    requires Enabled(s, Step.MarkPublished(p, at, fault))
    requires event == s.publishers[p].batch[s.publishers[p].next].event
    ensures StepYield(s, Step.MarkPublished(p, at, fault), p, got) ==
      got.(marked := got.marked + if fault != Lost then 1 else 0,
           marks := got.marks + if fault != Lost && Matches(s, p, event) then 1 else 0)
    ensures fault == Answered ==>
      var publishers := DoMarkPublished(s, p, at, fault).publishers;
      p in publishers && At(publishers[p], s.publishers[p].batch, s.publishers[p].next + 1)
  {}

  // ---------- RunOnce ----------

  // What one event of the batch runs into: how the broker's channels behave during its publish,
  // whether a message the broker does not vouch for has reached the queue all the same, and the
  // mark's clock and fault.
  datatype Meeting = Meeting(call: Confirms.Call, strays: bool, at: Time, fault: Fault)
  {
    // The broker has the message in its queue.
    predicate Arrives() {
      (call.accepted && Confirms.Good(call.fate)) || strays
    }
  }

  // What it meets: a publish that is not confirmed, with or without the message arriving, or a
  // confirmed publish and its mark.
  datatype Encounter = Unconfirmed(arrives: bool) | Confirmed(at: Time, fault: Fault)
  {
    predicate Passes() {
      Confirmed? && fault == Answered
    }

    // The mark may have been committed although its answer was lost.
    predicate Unknown() {
      Confirmed? && fault == Unseen
    }
  }

  // Publish on the channel `c` answers nil, or it does not.
  function Met(c: Confirms.Channel, m: Meeting): Encounter
    requires Confirms.Possible(c, m.call)
  {
    if Confirms.Published(c, m.call).1 == Confirms.Nil then Confirmed(m.at, m.fault) else Unconfirmed(m.Arrives())
  }

  function Calls(given: seq<Meeting>): (calls: seq<Confirms.Call>)
    ensures |calls| == |given|
  {
    if given == [] then [] else [given[0].call] + Calls(given[1..])
  }

  // One encounter after the other, each on the channel the one before leaves.
  ghost function Meets(c: Confirms.Channel, given: seq<Meeting>): (meets: seq<Encounter>)
    requires Confirms.AllPossible(c, Calls(given))
    ensures |meets| == |given|
    decreases |given|
  {
    if given == [] then []
    else
      assert Calls(given)[1..] == Calls(given[1..]);
      [Met(c, given[0])] + Meets(Confirms.Published(c, given[0].call).0, given[1..])
  }

  // The calls of Publish that a round has made have led the channel from c to d.
  ghost predicate Called(c: Confirms.Channel, made: seq<Confirms.Call>, d: Confirms.Channel) {
    Confirms.AllPossible(c, made) && Confirms.After(c, made) == d
  }

  // After i turns that passed, the channel is where the first i calls have led it, nothing is left
  // of them, and the rest of what is given lies ahead.
  ghost predicate Onward(c: Confirms.Channel, given: seq<Meeting>, i: nat, d: Confirms.Channel, meets: seq<Encounter>) {
    && i <= |given| == |meets|
    && Called(c, Calls(given[..i]), d) && Confirms.Successes(c, Calls(given[..i])) == i && Confirms.Quiet(d)
    && Confirms.AllPossible(d, Calls(given[i..])) && Meets(d, given[i..]) == meets[i..]
  }

  // Every call is taken by the client library and answered by its confirmation, every message is
  // acknowledged and routed, and every mark is answered.
  predicate AllWell(given: seq<Meeting>) {
    forall m | m in given ::
      && m.call.accepted && m.call.fate.ack && !m.call.fate.returned && m.call.branch == Confirms.TakeConfirm
      && m.fault == Answered
  }

  // Then every encounter passes.
  lemma {:induction false} AllWellPasses(c: Confirms.Channel, given: seq<Meeting>)
    requires Confirms.Quiet(c) && Confirms.AllPossible(c, Calls(given)) && AllWell(given)
    ensures AllPass(Meets(c, given), |given|)
    decreases |given|
  {
    if given == [] {
    } else {
      assert Calls(given)[1..] == Calls(given[1..]) && given[0] in given;
      Confirms.AnswerOnQuiet(c, given[0].call);
      AllWellPasses(Confirms.Published(c, given[0].call).0, given[1..]);
      assert Meets(c, given)[1..] == Meets(Confirms.Published(c, given[0].call).0, given[1..]);
      assert Meets(c, given)[0] == Met(c, given[0]);
      forall k | 0 < k < |given| ensures Meets(c, given)[k].Passes() {
        assert Meets(c, given)[k] == Meets(c, given)[1..][k - 1];
      }
    }
  }

  // When all goes well RunOnce does not fail, hands over all it claimed, and reports all of it, if
  // the session keeps its claims.
  lemma GoesWell(start: State, steps: seq<Step>, t: State, p: Token, batch: seq<Message>, c: Confirms.Channel,
                 given: seq<Meeting>, published: nat, failed: bool, before: seq<Step>, met: State)
    requires Runs(start, steps, t) && |batch| <= |given|
    requires Confirms.Quiet(c) && Confirms.AllPossible(c, Calls(given)) && AllWell(given)
    requires RanOnce(start, steps, t, p, batch, Answered, Meets(c, given), published, failed, before, met)
    ensures !failed && RunYield(start, steps, t, p, NOTHING).handed == batch
    ensures KeepsClaims(start, steps, t, p) ==> published == |batch|
  {
    AllWellPasses(c, given);
    if KeepsClaims(start, steps, t, p) {
      KeptClaimsAreMarked(start, steps, t, p, NOTHING);
    }
  }

  lemma {:induction false} CallsJoin(first: seq<Meeting>, m: Meeting)
    ensures Calls(first + [m]) == Calls(first) + [m.call]
  {
    if first == [] {
      assert first + [m] == [m] && [m][1..] == [];
    } else {
      CallsJoin(first[1..], m);
      assert (first + [m])[1..] == first[1..] + [m];
    }
  }

  lemma NextCall(c: Confirms.Channel, given: seq<Meeting>, i: nat, d: Confirms.Channel, meets: seq<Encounter>)
    requires Onward(c, given, i, d, meets) && i < |given|
    ensures Confirms.Possible(d, given[i].call) && meets[i] == Met(d, given[i])
    ensures var e := Confirms.Published(d, given[i].call).0;
      && Called(c, Calls(given[..i + 1]), e)
      && Confirms.Successes(c, Calls(given[..i + 1])) == i + (if meets[i].Confirmed? then 1 else 0)
      && (meets[i].Confirmed? ==> Onward(c, given, i + 1, e, meets))
  {
    assert given[i..][0] == given[i] && given[i..][1..] == given[i + 1..];
    assert Calls(given[i..])[1..] == Calls(given[i + 1..]);
    assert meets[i..][0] == meets[i] && meets[i..][1..] == meets[i + 1..];
    assert given[..i + 1] == given[..i] + [given[i]];
    CallsJoin(given[..i], given[i]);
    Confirms.OneMoreCall(c, Calls(given[..i]), given[i].call);
    if meets[i].Confirmed? {
      Confirms.NilOnQuiet(d, given[i].call);
    }
  }

  // One turn of the loop hands over one message and changes at most one row: the one its mark
  // matched, unless it was lost. Its answer says so, if there is one.
  predicate TurnYields(got: Yield, after: Yield, message: Message, meets: Encounter, matched: bool, applied: bool) {
    && after.claimed == got.claimed && after.handed == got.handed + [message]
    && applied == (meets.Passes() && matched)
    && after.marked == got.marked + (if meets.Passes() || meets.Unknown() then 1 else 0)
    && after.marks == got.marks + if applied || (meets.Unknown() && matched) then 1 else 0
  }

  // `met` is the state the turn's mark met, after `before`.
  ghost predicate MetBy(start: State, before: seq<Step>, met: State, p: Token, meets: Encounter, after: State)
    requires meets.Confirmed?
  {
    && Runs(start, before, met) && Enabled(met, Step.MarkPublished(p, meets.at, meets.fault))
    && after == Do(met, Step.MarkPublished(p, meets.at, meets.fault))
  }

  ghost predicate LastMatches(met: State, p: Token, handed: seq<Message>) {
    handed != [] && Matches(met, p, handed[|handed| - 1].event)
  }

  predicate AllPass(meets: seq<Encounter>, n: nat)
    requires n <= |meets|
  {
    forall k | 0 <= k < n :: meets[k].Passes()
  }

  // The last mark was committed although its answer was lost: `matched` says that the row it met
  // was still this session's.
  predicate Uncounted(total: Yield, batch: seq<Message>, meets: seq<Encounter>, matched: bool)
    requires |total.handed| <= |batch| <= |meets|
  {
    total.handed != [] && meets[|total.handed| - 1].Unknown() && matched
  }

  // What RunOnce reports about its batch: it hands over a prefix, all of it unless it failed, and
  // stops at the first event that does not pass. `published` is the number of rows its marks
  // changed if and only if the last mark is not one that was committed unseen.
  predicate Reported(total: Yield, batch: seq<Message>, claimFault: Fault, meets: seq<Encounter>,
                     published: nat, failed: bool, matched: bool)
    requires |batch| <= |meets|
  {
    var n := |total.handed|;
    && total.handed <= batch
    && (n > 0 ==> AllPass(meets, n - 1))
    && (failed <==> claimFault != Answered || (n > 0 && !meets[n - 1].Passes()))
    && (!failed ==> total.handed == batch && total.marked == |batch|)
    && total.marks == published + (if Uncounted(total, batch, meets, matched) then 1 else 0)
  }

  // After i turns that passed.
  predicate SoFar(got: Yield, batch: seq<Message>, i: nat, published: nat)
    requires i <= |batch|
  {
    got.claimed == Events(batch) && got.handed == batch[..i] && got.marked == i && got.marks == published
  }

  // The whole of RunOnce: what it claimed, what it reports, and, if its last turn got as far as a
  // mark and failed there, the state that mark met.
  ghost predicate RanOnce(start: State, steps: seq<Step>, t: State, p: Token, batch: seq<Message>, claimFault: Fault,
                          meets: seq<Encounter>, published: nat, failed: bool, before: seq<Step>, met: State)
    requires Runs(start, steps, t) && |batch| <= |meets|
  {
    var total := RunYield(start, steps, t, p, NOTHING);
    && (claimFault == Answered ==> total.claimed == Events(batch))
    && Reported(total, batch, claimFault, meets, published, failed, LastMatches(met, p, total.handed))
    && (total.handed != [] && failed && meets[|total.handed| - 1].Confirmed? ==>
          MetBy(start, before, met, p, meets[|total.handed| - 1], t))
  }

  // One more turn.
  lemma TurnAdds(batch: seq<Message>, i: nat, published: nat, got: Yield, after: Yield, meets: seq<Encounter>,
                 matched: bool, applied: bool)
    requires i < |batch| <= |meets| && SoFar(got, batch, i, published) && AllPass(meets, i)
    requires TurnYields(got, after, batch[i], meets[i], matched, applied)
    ensures meets[i].Passes() ==>
      SoFar(after, batch, i + 1, published + if applied then 1 else 0) && AllPass(meets, i + 1)
    ensures !meets[i].Passes() ==> Reported(after, batch, Answered, meets, published, true, matched)
  {
    assert batch[..i] + [batch[i]] == batch[..i + 1];
  }

  // The count does fall short: a run from the empty database in which one event is claimed, handed
  // over, confirmed and marked, with the mark's answer lost. RunOnce reports 0 of 1.
  lemma UnseenMarkIsNotCounted()
    ensures exists steps, t ::
      var batch := [Message(Drawn(0), 0)];
      && Runs(Init(), steps, t)
      && RunYield(Init(), steps, t, 0, NOTHING) == Yield([Drawn(0)], batch, 1, 1)
      && Reported(Yield([Drawn(0)], batch, 1, 1), batch, Answered, [Confirmed(0, Unseen)], 0, true, true)
      && !Reported(Yield([Drawn(0)], batch, 1, 1), batch, Answered, [Confirmed(0, Unseen)], 1, true, true)
  {
    var steps, met := OneHandedOver();
    var mark := Step.MarkPublished(0, 0, Unseen);
    YieldExtends(Init(), steps, met, mark, 0, NOTHING);
    MarkedSession(met, 0, 0, Unseen, Drawn(0), Yield([Drawn(0)], [Message(Drawn(0), 0)], 0, 0));
  }

  lemma OneClaimed() returns (steps: seq<Step>, t: State)
    ensures Runs(Init(), steps, t) && RunYield(Init(), steps, t, 0, NOTHING) == Yield([Drawn(0)], [], 0, 0)
    ensures t.copies == map[] && 0 in t.publishers && t.publishers[0] == Publisher([Message(Drawn(0), 0)], 0, false, 0)
    ensures Matches(t, 0, Drawn(0))
  {
    var created;
    created, t := Progress.FirstEventClaimed();
    YieldExtends(Init(), [], Init(), Progress.FIRST_CREATE, 0, NOTHING);
    YieldExtends(Init(), [] + [Progress.FIRST_CREATE], created, Progress.FIRST_CLAIM, 0, NOTHING);
    steps := [] + [Progress.FIRST_CREATE] + [Progress.FIRST_CLAIM];
    assert [] + [Drawn(0)] == [Drawn(0)];
  }

  lemma OneHandedOver() returns (steps: seq<Step>, t: State)
    ensures Runs(Init(), steps, t)
    ensures RunYield(Init(), steps, t, 0, NOTHING) == Yield([Drawn(0)], [Message(Drawn(0), 0)], 0, 0)
    ensures 0 in t.publishers && t.publishers[0] == Publisher([Message(Drawn(0), 0)], 0, true, 0)
    ensures Matches(t, 0, Drawn(0))
  {
    var first, mid := OneClaimed();
    var publish := Publish(0, 0, true, true);
    YieldExtends(Init(), first, mid, publish, 0, NOTHING);
    PublishedSession(mid, 0, 0, true, true, Yield([Drawn(0)], [], 0, 0));
    steps, t := first + [publish], Do(mid, publish);
    assert [] + [Message(Drawn(0), 0)] == [Message(Drawn(0), 0)];
  }

  // The loop before turn i.
  ghost predicate Underway(start: State, steps: seq<Step>, t: State, p: Token, batch: seq<Message>, i: nat,
                           meets: seq<Encounter>, published: nat)
  {
    && Runs(start, steps, t) && i <= |batch| <= |meets|
    && p in t.publishers && At(t.publishers[p], batch, i)
    && SoFar(RunYield(start, steps, t, p, NOTHING), batch, i, published) && AllPass(meets, i)
  }

  // One more turn of the loop, passed or failed.
  lemma TurnDone(start: State, steps: seq<Step>, mid: State, before: seq<Step>, met: State, more: seq<Step>, t: State,
                 p: Token, batch: seq<Message>, i: nat, meets: seq<Encounter>, published: nat, applied: bool)
    requires Underway(start, steps, mid, p, batch, i, meets, published) && i < |batch| && Runs(mid, more, t)
    requires var got := RunYield(start, steps, mid, p, NOTHING);
      TurnYields(got, RunYield(mid, more, t, p, got), batch[i], meets[i], Matches(met, p, batch[i].event), applied)
    requires meets[i].Confirmed? ==> MetBy(mid, before, met, p, meets[i], t)
    requires meets[i].Passes() ==> p in t.publishers && At(t.publishers[p], batch, i + 1)
    ensures meets[i].Passes() ==>
      Underway(start, steps + more, t, p, batch, i + 1, meets, published + if applied then 1 else 0)
    ensures !meets[i].Passes() ==>
      && Runs(start, steps + more, t)
      && RanOnce(start, steps + more, t, p, batch, Answered, meets, published, true, steps + before, met)
  {
    var got := RunYield(start, steps, mid, p, NOTHING);
    YieldJoins(start, steps, mid, more, t, p, NOTHING);
    TurnAdds(batch, i, published, got, RunYield(mid, more, t, p, got), meets, Matches(met, p, batch[i].event), applied);
    if meets[i].Confirmed? {
      RunsJoin(start, steps, mid, before, met);
    }
  }

  // What a round does to the channel: it stops at the first publish that fails, fails with it, and
  // leaves nothing behind if it succeeds.
  ghost predicate RoundDone(c: Confirms.Channel, made: seq<Confirms.Call>, d: Confirms.Channel,
                            claimed: bool, failed: bool) {
    && Called(c, made, d) && |made| <= Confirms.Successes(c, made) + 1
    && (!claimed ==> made == []) && (Confirms.Failed(c, made) ==> failed)
    && (!failed ==> Confirms.Quiet(d))
  }

  // The calls a round has made, as many as messages handed over, and what they did to the channel.
  ghost predicate MadeCalls(c: Confirms.Channel, given: seq<Meeting>, total: Yield, made: seq<Confirms.Call>,
                            d: Confirms.Channel, claimed: bool, failed: bool) {
    && |made| == |total.handed| <= |given| && made == Calls(given[..|made|])
    && RoundDone(c, made, d, claimed, failed)
  }

  // The loop is through.
  lemma RoundPassed(start: State, steps: seq<Step>, t: State, p: Token, batch: seq<Message>, meets: seq<Encounter>,
                    published: nat, before: seq<Step>, met: State, c: Confirms.Channel, given: seq<Meeting>,
                    d: Confirms.Channel)
    requires Underway(start, steps, t, p, batch, |batch|, meets, published) && Onward(c, given, |batch|, d, meets)
    ensures RanOnce(start, steps, t, p, batch, Answered, meets, published, false, before, met)
    ensures MadeCalls(c, given, RunYield(start, steps, t, p, NOTHING), Calls(given[..|batch|]), d, true, false)
  {
    assert batch[..|batch|] == batch;
  }

  // The loop has failed at turn i.
  lemma RoundFailed(start: State, steps: seq<Step>, t: State, p: Token, batch: seq<Message>, i: nat,
                    c: Confirms.Channel, given: seq<Meeting>, d: Confirms.Channel)
    requires Runs(start, steps, t) && i < |batch| <= |given|
    requires |RunYield(start, steps, t, p, NOTHING).handed| == i + 1
    requires Called(c, Calls(given[..i + 1]), d) && Confirms.Successes(c, Calls(given[..i + 1])) >= i
    ensures MadeCalls(c, given, RunYield(start, steps, t, p, NOTHING), Calls(given[..i + 1]), d, true, true)
  {}

  class Service {
    const world: World
    const batchSize: nat
    const claimTTL: Duration
    const client: Confirms.Client

    constructor (world: World, client: Confirms.Client, batchSize: nat, claimTTL: Duration)
      ensures this.world == world && this.client == client
      ensures this.batchSize == batchSize && this.claimTTL == claimTTL
    {
      this.world, this.client, this.batchSize, this.claimTTL := world, client, batchSize, claimTTL;
    }

    // Interference as a publisher session sees it.
    method Meanwhile(ghost token: Token, ghost got: Yield) returns (ghost steps: seq<Step>)
      requires world.Valid() && token in world.sys.publishers
      modifies world, world.database
      ensures world.Valid() && Runs(old(world.sys), steps, world.sys)
      ensures RunYield(old(world.sys), steps, world.sys, token, got) == got
      ensures token in world.sys.publishers && world.sys.publishers[token] == old(world.sys).publishers[token]
    {
      steps := world.Others(token, token);
      OthersLeavePublisher(old(world.sys), steps, world.sys, token);
      OthersYieldNothing(old(world.sys), steps, world.sys, token, got);
    }

    // The bookkeeping of the session's own step, after `steps`.
    ghost method Took(start: State, token: Token, steps: seq<Step>, step: Step, got: Yield) returns (more: seq<Step>)
      requires Reachable(world.sys) && Runs(start, steps, world.sys)
      requires RunYield(start, steps, world.sys, token, got) == got
      requires Enabled(world.sys, step) && Statement(world.sys, step) == world.database.Db()
      modifies world
      ensures world.Valid() && world.sys == Do(old(world.sys), step) && Runs(start, more, world.sys)
      ensures more == steps + [step]
      ensures RunYield(start, more, world.sys, token, got) == StepYield(old(world.sys), step, token, got)
    {
      YieldExtends(start, steps, world.sys, step, token, got);
      more := steps + [step];
      world.Took(step);
    }

    method ClaimCall(token: Token, now: Time, locked: set<EventId>, place: EventId -> nat, fault: Fault)
      returns (claimed: Option<seq<ClaimedEvent>>, ghost claim: FirstClaim, ghost steps: seq<Step>)
      requires world.Valid() && token !in world.sys.claims && Texts(world.database.text)
      modifies world, world.database
      ensures world.Valid() && Runs(old(world.sys), steps, world.sys)
      ensures Begins(RunYield(old(world.sys), steps, world.sys, token, NOTHING), token, claimed, world.sys)
      ensures fault != Answered <==> claimed.None?
      ensures claimed.Some? ==> |claimed.value| <= batchSize
      ensures fault != Lost ==> ClaimsFirst(old(world.sys), claim, steps, token, now, now + claimTTL, fault, batchSize,
                                            locked, world.database.text)
    {
      ghost var start := world.sys;
      steps := world.Others(token, token);
      OthersYieldNothing(start, steps, world.sys, token, NOTHING);
      TokenStaysFresh(start, steps, world.sys, token);
      claimed, claim, steps := ClaimStatement(token, now, locked, place, fault, start, steps);
    }

    // repository.ClaimOutbox, as far as the protocol is concerned.
    method ClaimRows(token: Token, now: Time, locked: set<EventId>, place: EventId -> nat, fault: Fault)
      returns (claimed: Option<seq<ClaimedEvent>>, ghost rows: seq<EventId>)
      requires Texts(world.database.text)
      modifies world.database
      ensures FirstClaimable(old(world.database.Db()), now, batchSize, locked, world.database.text, rows)
      ensures ClaimableRows(old(world.database.Db()), rows, now)
      ensures world.database.Db() ==
        if fault == Lost then old(world.database.Db())
        else Tables.ClaimOutbox(old(world.database.Db()), rows, token, now + claimTTL)
      ensures fault != Answered <==> claimed.None?
      ensures claimed.Some? ==> |claimed.value| == |rows| <= batchSize && forall i | 0 <= i < |rows| ::
        (rows[i] in old(world.database.events)
         && claimed.value[i] == ClaimedEvent(rows[i], old(world.database.events)[rows[i]].aggregate))
    {
      ghost var before, chosen := world.database.Db(), [];
      claimed, chosen, rows :=
        world.database.ClaimOutbox(now, batchSize, token, now + claimTTL, locked, place, fault);
      ChosenAreFirst(before, now, batchSize, locked, world.database.text, chosen, rows);
    }

    // The statement itself, after the others' `first`.
    method ClaimStatement(token: Token, now: Time, locked: set<EventId>, place: EventId -> nat, fault: Fault,
                          ghost start: State, ghost first: seq<Step>)
      returns (claimed: Option<seq<ClaimedEvent>>, ghost claim: FirstClaim, ghost steps: seq<Step>)
      requires world.Valid() && token !in world.sys.claims && Texts(world.database.text)
      requires Runs(start, first, world.sys) && RunYield(start, first, world.sys, token, NOTHING) == NOTHING
      requires forall step | step in first :: !ByPublisher(step, token)
      modifies world, world.database
      ensures world.Valid() && Runs(start, steps, world.sys)
      ensures Begins(RunYield(start, steps, world.sys, token, NOTHING), token, claimed, world.sys)
      ensures fault != Answered <==> claimed.None?
      ensures claimed.Some? ==> |claimed.value| <= batchSize
      ensures fault != Lost ==> ClaimsFirst(start, claim, steps, token, now, now + claimTTL, fault, batchSize, locked,
                                            world.database.text)
    {
      steps := first;
      ghost var before, rows := world.sys, [];
      claimed, rows := ClaimRows(token, now, locked, place, fault);
      claim := FirstClaim(first, before, rows);
      if fault != Lost {
        ghost var step := Step.ClaimOutbox(token, rows, now, now + claimTTL, fault);
        ClaimIsStep(before, step, world.database.Db());
        ClaimHappens(start, first, before, step, claimed);
        steps := first + [step];
        world.Took(step);
      }
    }

    // publisher.Publish, on a channel with nothing left of earlier calls: nil means that the
    // message has arrived.
    method PublishCall(ghost token: Token, ghost message: Message, m: Meeting, ghost got: Yield)
      returns (failed: bool, ghost steps: seq<Step>)
      requires world.Valid() && token in world.sys.publishers
      requires var session := world.sys.publishers[token];
        !session.confirmed && session.next < |session.batch| && session.batch[session.next] == message
      requires Confirms.Quiet(client.State()) && Confirms.Possible(client.State(), m.call)
      modifies world, world.database, client
      ensures world.Valid() && Runs(old(world.sys), steps, world.sys)
      ensures RunYield(old(world.sys), steps, world.sys, token, got) == got.(handed := got.handed + [message])
      ensures failed == Met(old(client.State()), m).Unconfirmed?
      ensures client.State() == Confirms.Published(old(client.State()), m.call).0
      ensures !failed ==>
        && token in world.sys.publishers
        && world.sys.publishers[token] == old(world.sys).publishers[token].(confirmed := true)
    {
      steps := Meanwhile(token, got);
      ghost var quiet := client.State();
      ghost var tag := Progress.Fresh(world.sys.copies.Keys);
      var outcome := client.Publish(m.call);
      if outcome == Confirms.Nil {
        Confirms.NilOnQuiet(quiet, m.call);
      }
      failed := outcome != Confirms.Nil;
      PublishedSession(world.sys, token, tag, m.Arrives(), !failed, got);
      steps := Took(old(world.sys), token, steps, Publish(token, tag, m.Arrives(), !failed), got);
    }

    // `met` is the state the statement met, after `before`.
    method MarkCall(token: Token, event: EventId, at: Time, fault: Fault, ghost got: Yield)
      returns (reply: UpdateReply, ghost before: seq<Step>, ghost met: State, ghost steps: seq<Step>)
      requires world.Valid() && token in world.sys.publishers
      requires var session := world.sys.publishers[token];
        session.confirmed && session.next < |session.batch| && session.batch[session.next].event == event
      modifies world, world.database
      ensures world.Valid() && Runs(old(world.sys), steps, world.sys)
      ensures Runs(old(world.sys), before, met) && Enabled(met, Step.MarkPublished(token, at, fault))
      ensures world.sys == Do(met, Step.MarkPublished(token, at, fault))
      ensures RunYield(old(world.sys), steps, world.sys, token, got) ==
        got.(marked := got.marked + if fault != Lost then 1 else 0,
             marks := got.marks + if fault != Lost && Matches(met, token, event) then 1 else 0)
      ensures reply == if fault != Answered then UpdateFailed else Affected(Matches(met, token, event))
      ensures fault == Answered ==>
        var was := old(world.sys).publishers[token];
        token in world.sys.publishers && At(world.sys.publishers[token], was.batch, was.next + 1)
    {
      before := Meanwhile(token, got);
      met := world.sys;
      MarkedSession(met, token, at, fault, event, got);
      reply := world.database.MarkPublished(event, token, at, fault);
      steps := Took(old(world.sys), token, before, Step.MarkPublished(token, at, fault), got);
    }

    // One turn of RunOnce's loop.
    method PublishAndMark(token: Token, event: ClaimedEvent, m: Meeting, ghost meets: Encounter, ghost got: Yield)
      returns (failed: bool, applied: bool, ghost before: seq<Step>, ghost met: State, ghost steps: seq<Step>)
      requires world.Valid() && token in world.sys.publishers
      requires var session := world.sys.publishers[token];
        && !session.confirmed && session.next < |session.batch|
        && session.batch[session.next] == Message(event.id, event.aggregate)
      requires Confirms.Quiet(client.State()) && Confirms.Possible(client.State(), m.call)
      requires meets == Met(client.State(), m)
      modifies world, world.database, client
      ensures world.Valid() && Runs(old(world.sys), steps, world.sys)
      ensures TurnYields(got, RunYield(old(world.sys), steps, world.sys, token, got),
                         Message(event.id, event.aggregate), meets, Matches(met, token, event.id), applied)
      ensures meets.Confirmed? ==> MetBy(old(world.sys), before, met, token, meets, world.sys)
      ensures failed == !meets.Passes()
      ensures client.State() == Confirms.Published(old(client.State()), m.call).0
      ensures !failed ==>
        var was := old(world.sys).publishers[token];
        token in world.sys.publishers && At(world.sys.publishers[token], was.batch, was.next + 1)
    {
      ghost var start := world.sys;
      failed, steps := PublishCall(token, Message(event.id, event.aggregate), m, got);
      applied, before, met := false, [], world.sys;
      if failed {
        return;
      }
      ghost var mid, handed := world.sys, RunYield(start, steps, world.sys, token, got);
      var reply;
      ghost var more;
      reply, before, met, more := MarkCall(token, event.id, m.at, m.fault, handed);
      YieldJoins(start, steps, mid, more, world.sys, token, got);
      RunsJoin(start, steps, mid, before, met);
      before := steps + before;
      steps := steps + more;
      failed := reply == UpdateFailed;
      applied := reply == Affected(true);
    }

    // outbox.Service.RunOnce. `batch` is what it claimed and `steps` is everything that happened
    // meanwhile; `met` is the state its last mark met and `made` are its calls of Publish. Nothing
    // may be left of earlier calls, unless no batch can be claimed anyway.
    method RunOnce(token: Token, now: Time, locked: set<EventId>, place: EventId -> nat, claimFault: Fault,
                   given: seq<Meeting>)
      returns (published: nat, failed: bool, ghost batch: seq<Message>, ghost before: seq<Step>, ghost met: State,
               ghost made: seq<Confirms.Call>, ghost claim: FirstClaim, ghost steps: seq<Step>)
      requires world.Valid() && token !in world.sys.claims && |given| == batchSize && Texts(world.database.text)
      requires Confirms.AllPossible(client.State(), Calls(given))
      requires Confirms.Quiet(client.State()) || claimFault != Answered
      modifies world, world.database, client
      ensures world.Valid() && Runs(old(world.sys), steps, world.sys) && |batch| <= batchSize
      ensures RanOnce(old(world.sys), steps, world.sys, token, batch, claimFault, Meets(old(client.State()), given),
                      published, failed, before, met)
      ensures MadeCalls(old(client.State()), given, RunYield(old(world.sys), steps, world.sys, token, NOTHING), made,
                        client.State(), claimFault == Answered, failed)
      ensures claimFault != Lost ==> ClaimsFirst(old(world.sys), claim, steps, token, now, now + claimTTL, claimFault,
                                                 batchSize, locked, world.database.text)
      ensures claimFault == Answered && AllWell(given) ==>
        && !failed && RunYield(old(world.sys), steps, world.sys, token, NOTHING).handed == batch
        && (KeepsClaims(old(world.sys), steps, world.sys, token) ==> published == |batch|)
    {
      ghost var start, c := world.sys, client.State();
      var claimed;
      claimed, claim, steps := ClaimCall(token, now, locked, place, claimFault);
      published, failed, batch, before, met, made := 0, false, [], [], world.sys, [];
      assert given[..0] == [];
      if claimed.None? {
        failed := true;
        return;
      }
      batch := Batch(claimed.value);
      published, failed, before, met, made, steps :=
        PublishClaimed(token, claimed.value, given, start, steps, c);
    }

    // RunOnce after its claim, `first` being the run up to it.
    method PublishClaimed(token: Token, events: seq<ClaimedEvent>, given: seq<Meeting>, ghost start: State,
                          ghost first: seq<Step>, ghost c: Confirms.Channel)
      returns (published: nat, failed: bool, ghost before: seq<Step>, ghost met: State,
               ghost made: seq<Confirms.Call>, ghost steps: seq<Step>)
      requires world.Valid() && |events| <= |given| && c == client.State() && Confirms.Quiet(c)
      requires Confirms.AllPossible(c, Calls(given))
      requires Underway(start, first, world.sys, token, Batch(events), 0, Meets(c, given), 0)
      modifies world, world.database, client
      ensures world.Valid() && Runs(start, steps, world.sys) && first <= steps
      ensures RanOnce(start, steps, world.sys, token, Batch(events), Answered, Meets(c, given), published, failed,
                      before, met)
      ensures MadeCalls(c, given, RunYield(start, steps, world.sys, token, NOTHING), made, client.State(), true, failed)
      ensures AllWell(given) ==>
        && !failed && RunYield(start, steps, world.sys, token, NOTHING).handed == Batch(events)
        && (KeepsClaims(start, steps, world.sys, token) ==> published == |events|)
    {
      ghost var batch, meets := Batch(events), Meets(c, given);
      assert given[..0] == [] && given[0..] == given && meets[0..] == meets;
      published, failed, before, met, made, steps := 
        PublishBatch(token, events, given, start, first, batch, meets, c);
      if AllWell(given) {
        GoesWell(start, steps, world.sys, token, batch, c, given, published, failed, before, met);
      }
    }

    // The loop over the events claimed, `first` being the run up to it.
    method PublishBatch(token: Token, events: seq<ClaimedEvent>, given: seq<Meeting>, ghost start: State,
                        ghost first: seq<Step>, ghost batch: seq<Message>, ghost meets: seq<Encounter>,
                        ghost c: Confirms.Channel)
      returns (published: nat, failed: bool, ghost before: seq<Step>, ghost met: State,
               ghost made: seq<Confirms.Call>, ghost steps: seq<Step>)
      requires world.Valid() && batch == Batch(events) && |events| <= |given|
      requires Underway(start, first, world.sys, token, batch, 0, meets, 0)
      requires Onward(c, given, 0, client.State(), meets)
      modifies world, world.database, client
      ensures world.Valid() && Runs(start, steps, world.sys) && first <= steps
      ensures RanOnce(start, steps, world.sys, token, batch, Answered, meets, published, failed, before, met)
      ensures MadeCalls(c, given, RunYield(start, steps, world.sys, token, NOTHING), made, client.State(), true, failed)
    {
      published, failed, before, met, steps := 0, false, [], world.sys, first;
      for i := 0 to |events|
        invariant world.Valid() && !failed && first <= steps
        invariant Underway(start, steps, world.sys, token, batch, i, meets, published)
        invariant Onward(c, given, i, client.State(), meets)
      {
        var applied;
        failed, applied, before, met, steps :=
          OneTurn(token, events[i], given[i], start, steps, batch, i, meets, published, c, given);
        if failed {
          made := Calls(given[..i + 1]);
          return;
        }
        if applied {
          published := published + 1;
        }
      }
      made := Calls(given[..|batch|]);
      RoundPassed(start, steps, world.sys, token, batch, meets, published, before, met, c, given, client.State());
    }

    // Turn i, and what is known of the whole round after it.
    method OneTurn(token: Token, event: ClaimedEvent, m: Meeting, ghost start: State, ghost first: seq<Step>,
                   ghost batch: seq<Message>, ghost i: nat, ghost meets: seq<Encounter>, ghost published: nat,
                   ghost c: Confirms.Channel, ghost given: seq<Meeting>)
      returns (failed: bool, applied: bool, ghost before: seq<Step>, ghost met: State, ghost steps: seq<Step>)
      requires world.Valid() && Underway(start, first, world.sys, token, batch, i, meets, published)
      requires Onward(c, given, i, client.State(), meets)
      requires i < |batch| && batch[i] == Message(event.id, event.aggregate) && given[i] == m
      modifies world, world.database, client
      ensures world.Valid() && Runs(start, steps, world.sys) && first <= steps
      ensures !failed ==>
        && Underway(start, steps, world.sys, token, batch, i + 1, meets, published + if applied then 1 else 0)
        && Onward(c, given, i + 1, client.State(), meets)
      ensures failed ==>
        && RanOnce(start, steps, world.sys, token, batch, Answered, meets, published, true, before, met)
        && MadeCalls(c, given, RunYield(start, steps, world.sys, token, NOTHING), Calls(given[..i + 1]), client.State(),
                     true, true)
    {
      ghost var mid, got := world.sys, RunYield(start, first, world.sys, token, NOTHING);
      NextCall(c, given, i, client.State(), meets);
      ghost var more;
      failed, applied, before, met, more := PublishAndMark(token, event, m, meets[i], got);
      TurnDone(start, first, mid, before, met, more, world.sys, token, batch, i, meets, published, applied);
      before, steps := first + before, first + more;
      if failed {
        YieldJoins(start, first, mid, more, world.sys, token, NOTHING);
        RoundFailed(start, steps, world.sys, token, batch, i, c, given, client.State());
      }
    }
  }

  // ---------- the publisher's loop ----------

  // Nothing is left of earlier calls of Publish, or no batch is claimed: RunOnce may be called.
  predicate Ready(c: Confirms.Channel, claimed: bool) {
    Confirms.Quiet(c) || !claimed
  }

  // One call of RunOnce in the loop, and whether the context is cancelled by its end.
  datatype Turn = Turn(made: seq<Confirms.Call>, after: Confirms.Channel, claimed: bool, failed: bool, cancelled: bool)

  // outbox.Service.Run: an error ends the loop unless it is the cancelled context's; a publish is
  // given up only on a cancelled context, and on one no batch is claimed. A call of RunOnce does
  // what it promises if it may be called.
  ghost predicate Loop(c: Confirms.Channel, cancelled: bool, turns: seq<Turn>)
    decreases |turns|
  {
    turns != [] ==>
      var turn := turns[0];
      && (Ready(c, turn.claimed) ==> RoundDone(c, turn.made, turn.after, turn.claimed, turn.failed))
      && (cancelled ==> !turn.claimed && turn.cancelled)
      && (forall call | call in turn.made && call.accepted && call.branch == Confirms.TakeDone :: turn.cancelled)
      && (turn.failed && !turn.cancelled ==> turns[1..] == [])
      && Loop(turn.after, turn.cancelled, turns[1..])
  }

  function Rounds(turns: seq<Turn>): seq<Confirms.Round> {
    if turns == [] then [] else [Confirms.Round(turns[0].made, turns[0].cancelled)] + Rounds(turns[1..])
  }

  ghost predicate AllReady(c: Confirms.Channel, turns: seq<Turn>)
    decreases |turns|
  {
    turns != [] ==> Ready(c, turns[0].claimed) && AllReady(turns[0].after, turns[1..])
  }

  // Every RunOnce of the loop may be called, and every nil its publishes return is honest.
  lemma {:induction false} LoopIsReady(c: Confirms.Channel, cancelled: bool, turns: seq<Turn>)
    requires Loop(c, cancelled, turns) && (Confirms.Quiet(c) || cancelled)
    ensures AllReady(c, turns)
    ensures Confirms.RunLoop(c, cancelled, Rounds(turns)) && Confirms.AllHonest(c, cancelled, Rounds(turns))
    decreases |turns|
  {
    if turns == [] {
    } else {
      var turn, rounds := turns[0], Rounds(turns);
      assert rounds[1..] == Rounds(turns[1..]);
      if turn.failed && !turn.cancelled {
        assert Confirms.RunLoop(turn.after, turn.cancelled, rounds[1..]);
      } else {
        LoopIsReady(turn.after, turn.cancelled, turns[1..]);
      }
      Confirms.LoopIsHonest(c, cancelled, rounds);
    }
  }
}
