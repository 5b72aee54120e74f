/** RabbitMQ publisher confirms (internal/messaging/rabbitmq/publisher.go): when does a nil error
    from Publish mean that the broker has taken this message? */
module Confirms {
  // The broker answers publishes in order: a basic.return, if the message could not be routed,
  // and then the confirmation, which names the publish by its sequence number.
  datatype Frame = Return(tag: nat) | Confirm(tag: nat, ack: bool)

  // What the broker makes of one message.
  datatype Fate = Fate(returned: bool, ack: bool)

  // The channel between client and broker: frames still to arrive, what the two Go channels
  // hold, and the sequence number of the next publish.
  datatype Channel = Channel(wire: seq<Frame>, confirms: seq<Frame>, bounced: seq<Frame>, next: nat)

  datatype Branch = TakeReturn | TakeConfirm | TakeClosed | TakeDone

  // One call of Publish: whether the client library took the message, its fate, how many frames
  // arrive before the first select fires and before the second one looks, and the branch the
  // first select takes.
  datatype Call = Call(accepted: bool, fate: Fate, before: nat, branch: Branch, between: nat)

  datatype Outcome = Nil | PublishFailed | Returned | ConfirmLost

  function FramesOf(tag: nat, fate: Fate): seq<Frame> {
    if fate.returned then [Return(tag), Confirm(tag, fate.ack)] else [Confirm(tag, fate.ack)]
  }

  // The first frame of the wire reaches its Go channel.
  function Arrive(c: Channel, n: nat): Channel
    decreases n
  {
    if n == 0 || c.wire == [] then c
    else
      var frame := c.wire[0];
      Arrive(c.(wire := c.wire[1..],
                confirms := if frame.Confirm? then c.confirms + [frame] else c.confirms,
                bounced := if frame.Return? then c.bounced + [frame] else c.bounced), n - 1)
  }

  function Written(c: Channel, fate: Fate): Channel {
    c.(wire := c.wire + FramesOf(c.next, fate), next := c.next + 1)
  }

  // The branches a select may take: a receive needs something to receive.
  predicate Ready(c: Channel, branch: Branch) {
    match branch
    case TakeReturn => c.bounced != []
    case TakeConfirm => c.confirms != []
    case _ => true
  }

  predicate Possible(c: Channel, call: Call) {
    call.accepted ==> Ready(Arrive(Written(c, call.fate), call.before), call.branch)
  }

  // Publish, from the channel before it to its outcome and the channel after it.
  function Published(c: Channel, call: Call): (r: (Channel, Outcome))
    requires Possible(c, call)
  {
    if !call.accepted then (c, PublishFailed)
    else
      var seen := Arrive(Written(c, call.fate), call.before);
      match call.branch
      case TakeReturn => (seen.(bounced := seen.bounced[1..]), Returned)
      case TakeClosed => (seen, ConfirmLost)
      case TakeDone => (seen, ConfirmLost)
      case TakeConfirm =>
        var taken := seen.(confirms := seen.confirms[1..]);
        if !seen.confirms[0].Confirm? || !seen.confirms[0].ack then (taken, ConfirmLost)
        else
          var later := Arrive(taken, call.between);
          if later.bounced != [] then (later.(bounced := later.bounced[1..]), Returned) else (later, Nil)
  }

  // The client, its fields consumed step by step by Publish.
  class Client {
    var wire: seq<Frame>
    var confirms: seq<Frame>
    var bounced: seq<Frame>
    var next: nat

    ghost function State(): Channel
      reads this
    {
      Channel(wire, confirms, bounced, next)
    }

    constructor ()
      ensures State() == Channel([], [], [], 0)
    {
      wire, confirms, bounced, next := [], [], [], 0;
    }

    // The library's reader goroutine delivers up to n frames.
    method Deliver(n: nat)
      modifies this
      ensures State() == Arrive(old(State()), n)
    {
      var left := n;
      while left > 0 && wire != []
        invariant Arrive(State(), left) == Arrive(old(State()), n)
        decreases left
      {
        if wire[0].Confirm? {
          confirms := confirms + [wire[0]];
        } else {
          bounced := bounced + [wire[0]];
        }
        wire := wire[1..];
        left := left - 1;
      }
    }

    method Publish(call: Call) returns (outcome: Outcome)
      requires Possible(State(), call)
      modifies this
      ensures (State(), outcome) == Published(old(State()), call)
      ensures outcome == PublishFailed <==> !call.accepted
      ensures call.accepted && call.branch == TakeReturn ==> outcome == Returned
      ensures call.accepted && (call.branch == TakeClosed || call.branch == TakeDone) ==> outcome == ConfirmLost
      ensures call.accepted && call.branch == TakeConfirm ==>
        var seen := Arrive(Written(old(State()), call.fate), call.before);
        outcome == (if !seen.confirms[0].Confirm? || !seen.confirms[0].ack then ConfirmLost
                    else if Arrive(seen.(confirms := seen.confirms[1..]), call.between).bounced != [] then Returned
                    else Nil)
      ensures Quiet(old(State())) ==>
        (outcome == Nil <==> call.accepted && call.fate.ack && !call.fate.returned && call.branch == TakeConfirm)
      ensures Quiet(old(State())) && call.accepted && call.branch == TakeConfirm ==>
        outcome == (if !call.fate.ack then ConfirmLost else if call.fate.returned then Returned else Nil)
      ensures Quiet(old(State())) && outcome == Nil ==>
        wire == [] && confirms == [] && bounced == [] && next == old(next) + 1
    {
      if Quiet(State()) {
        AnswerOnQuiet(State(), call);
      }
      if !call.accepted {
        return PublishFailed;
      }
      wire := wire + FramesOf(next, call.fate);
      next := next + 1;
      Deliver(call.before);
      match call.branch {
        case TakeReturn =>
          bounced := bounced[1..];
          return Returned;
        case TakeClosed =>
          return ConfirmLost;
        case TakeDone =>
          return ConfirmLost;
        case TakeConfirm =>
          var confirmation := confirms[0];
          confirms := confirms[1..];
          if !confirmation.Confirm? || !confirmation.ack {
            return ConfirmLost;
          }
          Deliver(call.between);
          if bounced != [] {
            bounced := bounced[1..];
            return Returned;
          }
          return Nil;
      }
    }
  }

  // ---------- what nil means ----------

  // Nothing is left of earlier publishes.
  predicate Quiet(c: Channel) {
    c.wire == [] && c.confirms == [] && c.bounced == []
  }

  predicate Good(fate: Fate) {
    fate.ack && !fate.returned
  }

  // The first answer of an earlier publish still to be read is a positive confirmation, with no
  // return before it.
  predicate StaleAckFirst(c: Channel) {
    c.bounced == [] && c.confirms + c.wire != [] && (c.confirms + c.wire)[0].Confirm? && (c.confirms + c.wire)[0].ack
  }

  predicate Sound(c: Channel) {
    forall i | 0 <= i < |c.confirms| :: c.confirms[i].Confirm?
  }

  lemma {:induction false} ArriveKeeps(c: Channel, n: nat)
    ensures Sound(c) ==> Sound(Arrive(c, n))
    ensures |Arrive(c, n).bounced| >= |c.bounced|
    ensures c.confirms != [] ==> Arrive(c, n).confirms != [] && Arrive(c, n).confirms[0] == c.confirms[0]
    decreases n
  {
    if n == 0 || c.wire == [] {
    } else {
      var frame := c.wire[0];
      ArriveKeeps(c.(wire := c.wire[1..],
                     confirms := if frame.Confirm? then c.confirms + [frame] else c.confirms,
                     bounced := if frame.Return? then c.bounced + [frame] else c.bounced), n - 1);
    }
  }

  // What the first confirmation to be read is, and what has arrived by then.
  lemma FirstConfirm(c: Channel, n: nat)
    requires Sound(c) && Arrive(c, n).confirms != [] && c.wire + c.confirms != []
    ensures c.confirms != [] ==> Arrive(c, n).confirms[0] == c.confirms[0]
    ensures c.confirms == [] && c.wire[0].Confirm? ==> Arrive(c, n).confirms[0] == c.wire[0]
    ensures c.confirms == [] && c.wire[0].Return? ==> Arrive(c, n).bounced != []
  {
    ArriveKeeps(c, n);
    if c.confirms == [] {
      var frame := c.wire[0];
      ArriveKeeps(c.(wire := c.wire[1..],
                     confirms := if frame.Confirm? then c.confirms + [frame] else c.confirms,
                     bounced := if frame.Return? then c.bounced + [frame] else c.bounced), n - 1);
    }
  }

  // On a quiet channel nil means this message was confirmed and not returned, and the channel is
  // quiet again.
  lemma NilOnQuiet(c: Channel, call: Call)
    requires Quiet(c) && Possible(c, call) && Published(c, call).1 == Nil
    ensures Good(call.fate) && Quiet(Published(c, call).0)
  {
    var frames := FramesOf(c.next, call.fate);
    var written := Written(c, call.fate);
    assert written.wire == frames;
    FirstConfirm(written, call.before);
    var seen := Arrive(written, call.before);
    var taken := seen.(confirms := seen.confirms[1..]);
    ArriveKeeps(taken, call.between);
    if !call.fate.returned {
      assert Arrive(written, call.before) == Arrive(Channel([], frames, [], written.next), call.before - 1);
    }
  }

  // And on a quiet channel every accepted publish that is answered by its confirmation is answered
  // for what it is: nil if the message was acknowledged and routed, and an error otherwise. A
  // return comes before its confirmation, so it has always arrived when that is read.
  lemma AnswerOnQuiet(c: Channel, call: Call)
    requires Quiet(c) && Possible(c, call)
    ensures Published(c, call).1 == Nil <==> call.accepted && Good(call.fate) && call.branch == TakeConfirm
    ensures Published(c, call).1 == Nil ==> Quiet(Published(c, call).0) && Published(c, call).0.next == c.next + 1
    ensures call.accepted && call.branch == TakeConfirm ==>
      Published(c, call).1 == (if !call.fate.ack then ConfirmLost else if call.fate.returned then Returned else Nil)
  {
    if call.accepted && call.branch == TakeConfirm {
      var written := Written(c, call.fate);
      assert written.wire == FramesOf(c.next, call.fate) && written.confirms == [] && written.bounced == [];
      ConfirmRead(written, call.fate, c.next, call.before);
      var seen := Arrive(written, call.before);
      NothingLeft(seen.(confirms := seen.confirms[1..]), call.between);
    }
  }

  // When the confirmation has arrived, everything has, the return before it.
  lemma ConfirmRead(c: Channel, fate: Fate, tag: nat, n: nat)
    requires c.wire == FramesOf(tag, fate) && c.confirms == [] && c.bounced == []
    requires Arrive(c, n).confirms != []
    ensures Arrive(c, n) ==
      Channel([], [Confirm(tag, fate.ack)], if fate.returned then [Return(tag)] else [], c.next)
  {
    if fate.returned {
      var first := c.(wire := [Confirm(tag, fate.ack)], bounced := [Return(tag)]);
      assert c.wire[1..] == first.wire && [] + [Return(tag)] == first.bounced;
      assert n > 0 ==> Arrive(c, n) == Arrive(first, n - 1);
      if n > 1 {
        OnlyConfirm(first, tag, fate.ack, n - 1);
      }
    } else if n > 0 {
      OnlyConfirm(c, tag, fate.ack, n);
    }
  }

  lemma OnlyConfirm(c: Channel, tag: nat, ack: bool, n: nat)
    requires c.wire == [Confirm(tag, ack)] && c.confirms == [] && n > 0
    ensures Arrive(c, n) == c.(wire := [], confirms := [Confirm(tag, ack)])
  {
    var after := c.(wire := [], confirms := [Confirm(tag, ack)]);
    assert c.wire[1..] == [] && [] + [Confirm(tag, ack)] == after.confirms;
    NothingLeft(after, n - 1);
  }

  lemma NothingLeft(c: Channel, n: nat)
    requires c.wire == []
    ensures Arrive(c, n) == c
  {}

  // In every other channel nil is worth as much, whatever the broker does next, if and only if no
  // stale positive confirmation comes first.
  lemma NilIsTrustworthy(c: Channel)
    requires Sound(c)
    ensures (forall call | Possible(c, call) && Published(c, call).1 == Nil :: Good(call.fate)) <==> !StaleAckFirst(c)
  {
    if StaleAckFirst(c) {
      var call := Call(true, Fate(false, false), if c.confirms == [] then 1 else 0, TakeConfirm, 0);
      StaleAckMisleads(c, call);
    } else {
      forall call | Possible(c, call) && Published(c, call).1 == Nil ensures Good(call.fate) {
        NilWithoutStaleAck(c, call);
      }
    }
  }

  lemma StaleAckMisleads(c: Channel, call: Call)
    requires Sound(c) && StaleAckFirst(c)
    requires call == Call(true, Fate(false, false), if c.confirms == [] then 1 else 0, TakeConfirm, 0)
    ensures Possible(c, call) && Published(c, call).1 == Nil && !Good(call.fate)
  {
    var written := Written(c, call.fate);
    if c.confirms == [] {
      assert written.wire[0] == c.wire[0];
      assert Arrive(written, 1).confirms == [c.wire[0]];
    }
  }

  lemma NilWithoutStaleAck(c: Channel, call: Call)
    requires Sound(c) && !StaleAckFirst(c) && Possible(c, call) && Published(c, call).1 == Nil
    ensures Good(call.fate)
  {
    if Quiet(c) {
      NilOnQuiet(c, call);
    } else {
      var written := Written(c, call.fate);
      assert c.wire != [] ==> written.wire[0] == c.wire[0];
      var seen := Arrive(written, call.before);
      ArriveKeeps(written, call.before);
      ArriveKeeps(seen.(confirms := seen.confirms[1..]), call.between);
      FirstConfirm(written, call.before);
    }
  }

  // A publish given up on its context leaves such a confirmation behind: the next publish may
  // report nil for a message the broker refused.
  lemma GivingUpLeavesStaleAck()
    ensures var quiet := Channel([], [], [], 0);
            var abandoned := Call(true, Fate(false, true), 0, TakeDone, 0);
            && Possible(quiet, abandoned) && Published(quiet, abandoned).1 == ConfirmLost
            && StaleAckFirst(Published(quiet, abandoned).0)
  {}

  // ---------- one batch: it stops at the first failure ----------

  ghost predicate AllPossible(c: Channel, calls: seq<Call>)
    decreases |calls|
  {
    calls != [] ==> Possible(c, calls[0]) && AllPossible(Published(c, calls[0]).0, calls[1..])
  }

  // How many publishes return nil before the first failure.
  ghost function Successes(c: Channel, calls: seq<Call>): (n: nat)
    requires AllPossible(c, calls)
    ensures n <= |calls|
    decreases |calls|
  {
    if calls == [] || Published(c, calls[0]).1 != Nil then 0
    else 1 + Successes(Published(c, calls[0]).0, calls[1..])
  }

  ghost function After(c: Channel, calls: seq<Call>): Channel
    requires AllPossible(c, calls)
    decreases |calls|
  {
    if calls == [] then c else After(Published(c, calls[0]).0, calls[1..])
  }

  // One more call, after calls that all succeeded.
  lemma {:induction false} OneMoreCall(c: Channel, calls: seq<Call>, call: Call)
    requires AllPossible(c, calls) && Possible(After(c, calls), call) && Successes(c, calls) == |calls|
    ensures AllPossible(c, calls + [call]) && After(c, calls + [call]) == Published(After(c, calls), call).0
    ensures Successes(c, calls + [call]) == |calls| + if Published(After(c, calls), call).1 == Nil then 1 else 0
    decreases |calls|
  {
    if calls == [] {
      assert calls + [call] == [call] && [call][1..] == [];
    } else {
      OneMoreCall(Published(c, calls[0]).0, calls[1..], call);
      assert (calls + [call])[1..] == calls[1..] + [call];
    }
  }

  ghost predicate Honest(c: Channel, calls: seq<Call>)
    requires AllPossible(c, calls)
  {
    forall i | 0 <= i < Successes(c, calls) :: Good(calls[i].fate)
  }

  // On a quiet channel every nil before the first failure is honest, and without a failure the
  // channel is quiet again.
  lemma {:induction false} EveryNilIsHonest(c: Channel, calls: seq<Call>)
    requires Quiet(c) && AllPossible(c, calls)
    ensures Honest(c, calls)
    ensures Successes(c, calls) == |calls| ==> Quiet(After(c, calls))
    decreases |calls|
  {
    if calls == [] {
    } else if Published(c, calls[0]).1 == Nil {
      NilOnQuiet(c, calls[0]);
      EveryNilIsHonest(Published(c, calls[0]).0, calls[1..]);
      forall i | 0 <= i < Successes(c, calls) ensures Good(calls[i].fate) {
        assert i > 0 ==> calls[i] == calls[1..][i - 1];
      }
    }
  }

  // ---------- the publisher's loop ----------

  // One RunOnce: its calls of Publish, and whether the context is cancelled by its end.
  datatype Round = Round(calls: seq<Call>, cancelled: bool)

  ghost predicate Failed(c: Channel, calls: seq<Call>)
    requires AllPossible(c, calls)
  {
    Successes(c, calls) < |calls|
  }

  // outbox.Service.Run: a round stops at its first failed publish, and a failure ends the loop
  // unless it is the cancelled context's, which is how a publish is given up. On a cancelled
  // context the loop may go round again, but claiming a batch fails, so nothing is published.
  ghost predicate RunLoop(c: Channel, cancelled: bool, rounds: seq<Round>)
    decreases |rounds|
  {
    rounds != [] ==>
      var calls := rounds[0].calls;
      && AllPossible(c, calls) && |calls| <= Successes(c, calls) + 1
      && (cancelled ==> calls == [] && rounds[0].cancelled)
      && (forall call | call in calls && call.accepted && call.branch == TakeDone :: rounds[0].cancelled)
      && (Failed(c, calls) && !rounds[0].cancelled ==> rounds[1..] == [])
      && RunLoop(After(c, calls), rounds[0].cancelled, rounds[1..])
  }

  ghost predicate AllHonest(c: Channel, cancelled: bool, rounds: seq<Round>)
    requires RunLoop(c, cancelled, rounds)
    decreases |rounds|
  {
    rounds != [] ==>
      && Honest(c, rounds[0].calls)
      && AllHonest(After(c, rounds[0].calls), rounds[0].cancelled, rounds[1..])
  }

  // In the life of a publisher, giving up included, every nil is honest: all messages it counted
  // as published were confirmed and routed.
  lemma {:induction false} LoopIsHonest(c: Channel, cancelled: bool, rounds: seq<Round>)
    requires RunLoop(c, cancelled, rounds) && (Quiet(c) || cancelled)
    ensures AllHonest(c, cancelled, rounds)
    decreases |rounds|
  {
    if rounds == [] {
    } else if cancelled {
      LoopIsHonest(After(c, rounds[0].calls), true, rounds[1..]);
    } else {
      EveryNilIsHonest(c, rounds[0].calls);
      if Failed(c, rounds[0].calls) && !rounds[0].cancelled {
        return;
      }
      LoopIsHonest(After(c, rounds[0].calls), rounds[0].cancelled, rounds[1..]);
    }
  }
}
