/** Deliveries and the limiter's threads in one history: what a worker's thread holds when its
    session takes a step. */
module Joint {
  import opened Protocol
  import opened Rows
  import Limiter
  import Sequences
  import RetryArithmetic

  // A step of the protocol, or of the limiter.
  datatype Moment = Stepped(step: Step) | Turned(turn: Limiter.Step)

  function StepsIn(history: seq<Moment>): seq<Step> {
    if history == [] then []
    else (if history[0].Stepped? then [history[0].step] else []) + StepsIn(history[1..])
  }

  function TurnsIn(history: seq<Moment>): seq<Limiter.Step> {
    if history == [] then []
    else (if history[0].Turned? then [history[0].turn] else []) + TurnsIn(history[1..])
  }

  predicate Holds(g: Limiter.System, th: Limiter.ThreadId, destination: string) {
    th in g.threads && g.threads[th] == Limiter.Holding(destination)
  }

  // The thread is through with the limiter, if it ever turned to it: it holds nothing.
  predicate Through(g: Limiter.System, th: Limiter.ThreadId) {
    th in g.threads ==> g.threads[th] == Limiter.Finished
  }

  // The thread holds a slot of the destination of the task that session `w` has claimed.
  predicate HoldsFor(s: State, g: Limiter.System, w: Token, th: Limiter.ThreadId) {
    && w in s.workers && (s.workers[w].progress.Claimed? || s.workers[w].progress.Admitted?)
    && Holds(g, th, s.workers[w].progress.snapshot.request.destination)
  }

  // Where the thread is when session `w` takes a step: it has not turned to the limiter when it
  // claims, holds a slot of its task's destination when it is admitted and when it sends, and
  // holds nothing when it is refused and when it writes the result, whose retry, if there is one,
  // is decided with the jitter of the draw.
  predicate AtGate(s: State, g: Limiter.System, step: Step, w: Token, th: Limiter.ThreadId, draw: real) {
    match step
    case Claim(v, _, _, _) => v == w ==> th !in g.threads
    case Admit(v, admitted) => v == w ==> if admitted then HoldsFor(s, g, w, th) else Through(g, th)
    case Send(v, _) => v == w ==> HoldsFor(s, g, w, th)
    case Apply(v, _, jittered, _) => v == w ==>
      && Through(g, th) && w in s.workers && s.workers[w].progress.Answer?
      && var t := s.workers[w].progress.snapshot;
         jittered == RetryArithmetic.JitterValue(t.request.policy, t.attempts, draw)
    case _ => true
  }

  // The thread asks the limiter for a slot of its task's destination, under the task's limit.
  predicate AsksFor(s: State, turn: Limiter.Step, w: Token, th: Limiter.ThreadId) {
    turn.Start? && turn.th == th ==>
      && w in s.workers && s.workers[w].progress.Claimed?
      && var t := s.workers[w].progress.snapshot;
         turn.d == t.request.destination && turn.limit == t.request.concurrencyLimit
  }

  // The history leads from s and g to t and k, with session `w` and thread `th` in step.
  ghost predicate Together(s: State, g: Limiter.System, history: seq<Moment>, t: State, k: Limiter.System,
                           w: Token, th: Limiter.ThreadId, draw: real)
    decreases |history|
  {
    if history == [] then s == t && g == k
    else
      match history[0]
      case Stepped(step) =>
        Enabled(s, step) && AtGate(s, g, step, w, th, draw) && Together(Do(s, step), g, history[1..], t, k, w, th, draw)
      case Turned(turn) =>
        && Limiter.Enabled(g, turn) && AsksFor(s, turn, w, th)
        && Together(s, Limiter.Do(g, turn), history[1..], t, k, w, th, draw)
  }

  // ---------- histories and runs ----------

  lemma {:induction false} TogetherRuns(s: State, g: Limiter.System, history: seq<Moment>, t: State, k: Limiter.System,
                                        w: Token, th: Limiter.ThreadId, draw: real)
    requires Together(s, g, history, t, k, w, th, draw)
    ensures Runs(s, StepsIn(history), t) && Limiter.Runs(g, TurnsIn(history), k)
    decreases |history|
  {
    if history == [] {
    } else {
      match history[0] {
        case Stepped(step) =>
          TogetherRuns(Do(s, step), g, history[1..], t, k, w, th, draw);
          assert ([step] + StepsIn(history[1..]))[1..] == StepsIn(history[1..]);
          assert [] + TurnsIn(history[1..]) == TurnsIn(history[1..]);
        case Turned(turn) =>
          TogetherRuns(s, Limiter.Do(g, turn), history[1..], t, k, w, th, draw);
          assert ([turn] + TurnsIn(history[1..]))[1..] == TurnsIn(history[1..]);
          assert [] + StepsIn(history[1..]) == StepsIn(history[1..]);
      }
    }
  }

  lemma {:induction false} TogetherJoins(
      s: State, g: Limiter.System, first: seq<Moment>, mid: State, held: Limiter.System,
      second: seq<Moment>, t: State, k: Limiter.System, w: Token, th: Limiter.ThreadId, draw: real)
    requires Together(s, g, first, mid, held, w, th, draw) && Together(mid, held, second, t, k, w, th, draw)
    ensures Together(s, g, first + second, t, k, w, th, draw)
    decreases |first|
  {
    if first == [] {
      assert first + second == second;
    } else {
      assert (first + second)[1..] == first[1..] + second;
      match first[0]
      case Stepped(step) => TogetherJoins(Do(s, step), g, first[1..], mid, held, second, t, k, w, th, draw);
      case Turned(turn) => TogetherJoins(s, Limiter.Do(g, turn), first[1..], mid, held, second, t, k, w, th, draw);
    }
  }

  lemma {:induction false} StepsJoin(first: seq<Moment>, second: seq<Moment>)
    ensures StepsIn(first + second) == StepsIn(first) + StepsIn(second)
    decreases |first|
  {
    if first == [] {
      assert first + second == second;
    } else {
      StepsJoin(first[1..], second);
      Sequences.HeadFirst(first, second);
      Sequences.Associates(if first[0].Stepped? then [first[0].step] else [], StepsIn(first[1..]), StepsIn(second));
    }
  }

  // Steps of the protocol alone, and of the limiter alone, as histories.

  function AllSteps(steps: seq<Step>): (history: seq<Moment>)
    ensures |history| == |steps| && forall i | 0 <= i < |steps| :: history[i] == Stepped(steps[i])
  {
    seq(|steps|, i requires 0 <= i < |steps| => Stepped(steps[i]))
  }

  function AllTurns(turns: seq<Limiter.Step>): (history: seq<Moment>)
    ensures |history| == |turns| && forall i | 0 <= i < |turns| :: history[i] == Turned(turns[i])
  {
    seq(|turns|, i requires 0 <= i < |turns| => Turned(turns[i]))
  }

  lemma {:induction false} OnlySteps(steps: seq<Step>)
    ensures StepsIn(AllSteps(steps)) == steps
  {
    if steps == [] {
    } else {
      assert AllSteps(steps)[1..] == AllSteps(steps[1..]);
      OnlySteps(steps[1..]);
    }
  }

  lemma {:induction false} OnlyTurns(turns: seq<Limiter.Step>)
    ensures StepsIn(AllTurns(turns)) == []
  {
    if turns == [] {
    } else {
      assert AllTurns(turns)[1..] == AllTurns(turns[1..]);
      OnlyTurns(turns[1..]);
    }
  }

  lemma {:induction false} TurnsTogether(s: State, g: Limiter.System, turns: seq<Limiter.Step>, k: Limiter.System,
                                         w: Token, th: Limiter.ThreadId, draw: real)
    requires Limiter.Runs(g, turns, k) && forall turn | turn in turns :: AsksFor(s, turn, w, th)
    ensures Together(s, g, AllTurns(turns), s, k, w, th, draw)
    decreases |turns|
  {
    if turns == [] {
    } else {
      assert AllTurns(turns)[1..] == AllTurns(turns[1..]) && turns[0] in turns;
      TurnsTogether(s, Limiter.Do(g, turns[0]), turns[1..], k, w, th, draw);
    }
  }

  // Steps that are none of the session's.
  predicate NotOwn(steps: seq<Step>, w: Token) {
    forall step | step in steps :: !Handles(step, w)
  }

  // The step is one of Handle's for the session.
  predicate Handles(step: Step, w: Token) {
    match step
    case Claim(v, _, _, _) => v == w
    case Admit(v, _) => v == w
    case Send(v, _) => v == w
    case Apply(v, _, _, _) => v == w
    case _ => false
  }

  lemma {:induction false} OthersTogether(s: State, g: Limiter.System, steps: seq<Step>, t: State,
                                          w: Token, th: Limiter.ThreadId, draw: real)
    requires Runs(s, steps, t) && NotOwn(steps, w)
    ensures Together(s, g, AllSteps(steps), t, g, w, th, draw)
    decreases |steps|
  {
    if steps == [] {
    } else {
      assert steps[0] in steps;
      assert AllSteps(steps)[1..] == AllSteps(steps[1..]);
      OthersTogether(Do(s, steps[0]), g, steps[1..], t, w, th, draw);
    }
  }

  // Others' steps, and then one of the session's own.
  lemma OwnStepLast(s: State, g: Limiter.System, steps: seq<Step>, mid: State, step: Step,
                    w: Token, th: Limiter.ThreadId, draw: real)
    requires Runs(s, steps, mid) && NotOwn(steps, w) && Enabled(mid, step) && AtGate(mid, g, step, w, th, draw)
    ensures var history := AllSteps(steps) + [Stepped(step)];
      && Together(s, g, history, Do(mid, step), g, w, th, draw)
      && StepsIn(history) == steps + [step]
  {
    var last := [Stepped(step)];
    assert last[1..] == [];
    OthersTogether(s, g, steps, mid, w, th, draw);
    assert Together(mid, g, last, Do(mid, step), g, w, th, draw);
    TogetherJoins(s, g, AllSteps(steps), mid, g, last, Do(mid, step), g, w, th, draw);
    StepsJoin(AllSteps(steps), last);
    OnlySteps(steps);
  }

  // ---------- the slot around the call of Send ----------

  // The thread's own turn at the limiter.
  predicate TurnOf(moment: Moment, th: Limiter.ThreadId) {
    moment.Turned? && moment.turn.th == th
  }

  // From moment `a` on up to `b`, both excluded, the thread leaves the limiter alone.
  predicate Undisturbed(history: seq<Moment>, a: int, b: int, th: Limiter.ThreadId)
    requires -1 <= a <= b <= |history|
  {
    forall j | a < j < b :: !TurnOf(history[j], th)
  }

  lemma {:induction false} SplitAt(s: State, g: Limiter.System, history: seq<Moment>, t: State, k: Limiter.System,
                                   w: Token, th: Limiter.ThreadId, draw: real, i: nat)
    returns (mid: State, held: Limiter.System)
    requires Together(s, g, history, t, k, w, th, draw) && i <= |history|
    ensures Together(s, g, history[..i], mid, held, w, th, draw) && Together(mid, held, history[i..], t, k, w, th, draw)
    decreases i
  {
    if i == 0 {
      mid, held := s, g;
      assert history[..0] == [] && history[0..] == history;
    } else {
      assert history[..i][1..] == history[1..][..i - 1] && history[i..] == history[1..][i - 1..];
      match history[0]
      case Stepped(step) => mid, held := SplitAt(Do(s, step), g, history[1..], t, k, w, th, draw, i - 1);
      case Turned(turn) => mid, held := SplitAt(s, Limiter.Do(g, turn), history[1..], t, k, w, th, draw, i - 1);
    }
  }

  // A held slot stays held until the thread's own release.
  lemma {:induction false} FirstRelease(s: State, g: Limiter.System, history: seq<Moment>, t: State, k: Limiter.System,
                                        w: Token, th: Limiter.ThreadId, draw: real, d: string)
    returns (b: nat, mid: State, left: Limiter.System)
    requires Together(s, g, history, t, k, w, th, draw) && Holds(g, th, d)
    ensures b <= |history| && Undisturbed(history, -1, b, th)
    ensures b == |history| ==> Holds(k, th, d)
    ensures b < |history| ==>
      && history[b] == Turned(Limiter.Release(th)) && Through(left, th)
      && Together(mid, left, history[b + 1..], t, k, w, th, draw)
    decreases |history|
  {
    if history == [] {
      b, mid, left := 0, s, g;
    } else if TurnOf(history[0], th) {
      b, mid, left := 0, s, Limiter.Do(g, history[0].turn);
    } else {
      var rest := history[1..];
      match history[0] {
        case Stepped(step) => b, mid, left := FirstRelease(Do(s, step), g, rest, t, k, w, th, draw, d);
        case Turned(turn) => b, mid, left := FirstRelease(s, Limiter.Do(g, turn), rest, t, k, w, th, draw, d);
      }
      if b < |rest| {
        assert rest[b + 1..] == history[b + 2..];
      }
      b := b + 1;
    }
  }

  // A slot that is held in the end was granted by the thread's last turn.
  lemma {:induction false} LastTry(s: State, g: Limiter.System, history: seq<Moment>, t: State, k: Limiter.System,
                                   w: Token, th: Limiter.ThreadId, draw: real, d: string) returns (a: nat)
    requires Together(s, g, history, t, k, w, th, draw) && !Holds(g, th, d) && Holds(k, th, d)
    ensures a < |history| && history[a] == Turned(Limiter.Try(th)) && Undisturbed(history, a, |history|, th)
    decreases |history|
  {
    var next, after := s, g;
    match history[0] {
      case Stepped(step) => next := Do(s, step);
      case Turned(turn) => after := Limiter.Do(g, turn);
    }
    if !Holds(after, th, d) {
      a := LastTry(next, after, history[1..], t, k, w, th, draw, d);
      a := a + 1;
    } else {
      var b, mid, left := FirstRelease(next, after, history[1..], t, k, w, th, draw, d);
      if b == |history[1..]| {
        a := 0;
      } else {
        a := LastTry(mid, left, history[1..][b + 1..], t, k, w, th, draw, d);
        a := a + b + 2;
      }
    }
  }

  // A thread that comes to the limiter with session `w` and leaves it holding nothing is granted a
  // slot before the session sends, of its task's destination, and keeps it until its release after.
  lemma SendsUnderSlot(s: State, g: Limiter.System, history: seq<Moment>, t: State, k: Limiter.System,
                       w: Token, th: Limiter.ThreadId, draw: real, i: nat)
    requires Together(s, g, history, t, k, w, th, draw) && th !in g.threads && Through(k, th)
    requires i < |history| && history[i].Stepped? && history[i].step.Send? && history[i].step.worker == w
    ensures exists a: nat, b: nat, mid, held ::
      && a < i < b < |history| && history[a] == Turned(Limiter.Try(th)) && history[b] == Turned(Limiter.Release(th))
      && Undisturbed(history, a, b, th)
      && Together(s, g, history[..i], mid, held, w, th, draw) && HoldsFor(mid, held, w, th)
  {
    var mid, held := SplitAt(s, g, history, t, k, w, th, draw, i);
    assert history[i..][0] == history[i] && AtGate(mid, held, history[i].step, w, th, draw);
    var d := mid.workers[w].progress.snapshot.request.destination;
    var a := LastTry(s, g, history[..i], mid, held, w, th, draw, d);
    var b, later, left := FirstRelease(mid, held, history[i..], t, k, w, th, draw, d);
    assert history[i..][b] == history[i + b];
    UndisturbedThrough(history, a, i, b, th);
  }

  lemma UndisturbedThrough(history: seq<Moment>, a: nat, i: nat, b: nat, th: Limiter.ThreadId)
    requires a < i && i + b <= |history|
    requires Undisturbed(history[..i], a, i, th) && Undisturbed(history[i..], -1, b, th)
    ensures Undisturbed(history, a, i + b, th)
  {
    forall j | a < j < i + b ensures !TurnOf(history[j], th) {
      if j < i {
        assert history[..i][j] == history[j];
      } else {
        assert history[i..][j - i] == history[j];
      }
    }
  }
}
