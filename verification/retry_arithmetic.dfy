/** Retry policies as the destination file's validation admits them, bounded jitter, and what the
    retry decision guarantees under both (internal/destination/validate.go,
    internal/notification/jitter.go, internal/notification/retry.go). */
module RetryArithmetic {
  import opened Wrappers
  import opened Notification
  import opened Rows

  const LONGEST_LIFETIME: Duration := 7 * 24 * 3_600_000_000_000

  datatype PolicyError = BadLifetime | BadMaxAttempts | BadConcurrency | BadDelay(index: nat) | NoDelays

  predicate ValidDelay(raw: Option<Duration>, lifetime: Duration) {
    raw.Some? && 0 < raw.value <= lifetime
  }

  predicate ValidPolicy(policy: RetryPolicy) {
    && 1 <= policy.maxAttempts <= 32
    && 0 < policy.lifetime <= LONGEST_LIFETIME
    && (forall i | 0 <= i < |policy.delays| :: 0 < policy.delays[i] <= policy.lifetime)
    && (policy.maxAttempts > 1 ==> policy.delays != [])
  }

  // The retry part of parseDestination. `None` is a duration that does not parse.
  method ParsePolicy(lifetime: Option<Duration>, maxAttempts: int, concurrencyLimit: int,
                     rawDelays: seq<Option<Duration>>)
    returns (r: Result<RetryPolicy, PolicyError>)
    ensures r.Ok? ==> ValidPolicy(r.value)
    ensures r.Ok? ==> Some(r.value.lifetime) == lifetime && r.value.maxAttempts == maxAttempts
    ensures r.Ok? ==> |r.value.delays| == |rawDelays|
    ensures r.Ok? ==> forall i | 0 <= i < |rawDelays| :: Some(r.value.delays[i]) == rawDelays[i]
    ensures r.Ok? <==>
      && lifetime.Some? && 0 < lifetime.value <= 604_800_000_000_000
      && 1 <= maxAttempts <= 32 && 1 <= concurrencyLimit <= 1000
      && (forall raw | raw in rawDelays :: raw.Some? && 0 < raw.value <= lifetime.value)
      && (maxAttempts > 1 ==> rawDelays != [])
    ensures r.Err? && r.error.BadDelay? ==>
      && r.error.index < |rawDelays| && lifetime.Some? && !ValidDelay(rawDelays[r.error.index], lifetime.value)
      && forall i | 0 <= i < r.error.index :: ValidDelay(rawDelays[i], lifetime.value)
  {
    if lifetime.None? || lifetime.value <= 0 || lifetime.value > LONGEST_LIFETIME {
      return Err(BadLifetime);
    }
    if maxAttempts < 1 || maxAttempts > 32 {
      return Err(BadMaxAttempts);
    }
    if concurrencyLimit < 1 || concurrencyLimit > 1000 {
      return Err(BadConcurrency);
    }
    var delays: seq<Duration> := [];
    for index := 0 to |rawDelays|
      invariant |delays| == index
      invariant forall i | 0 <= i < index :: ValidDelay(rawDelays[i], lifetime.value)
      invariant forall i | 0 <= i < index :: Some(delays[i]) == rawDelays[i]
    {
      var raw := rawDelays[index];
      if raw.None? || raw.value <= 0 || raw.value > lifetime.value {
        assert raw in rawDelays;
        return Err(BadDelay(index));
      }
      delays := delays + [raw.value];
    }
    if maxAttempts > 1 && |delays| == 0 {
      return Err(NoDelays);
    }
    return Ok(RetryPolicy(maxAttempts, lifetime.value, delays));
  }

  // ---------- jitter ----------

  // BoundedJitter.Apply for the generator's draw in [0, 1): the delay scaled by 0.8 up to 1.2,
  // truncated, but at least one nanosecond.
  function Jittered(delay: Duration, draw: real): Duration {
    if delay <= 0 then delay
    else
      var result := (delay as real * (0.8 + draw * 0.4)).Floor;
      if result < 1 then 1 else result
  }

  predicate IsDraw(draw: real) {
    0.0 <= draw < 1.0
  }

  // The generator is a stream of draws and a position in it.
  class BoundedJitter {
    const stream: nat -> real
    var position: nat

    constructor (stream: nat -> real)
      ensures this.stream == stream && position == 0
    {
      this.stream, position := stream, 0;
    }

    // A delay that is not positive is handed back and costs no draw.
    method Apply(delay: Duration) returns (result: Duration)
      modifies this
      ensures result == Jittered(delay, stream(old(position)))
      ensures position == old(position) + if delay > 0 then 1 else 0
      ensures delay <= 0 ==> result == delay
      ensures delay > 0 ==>
        var scaled := (delay as real * (0.8 + stream(old(position)) * 0.4)).Floor;
        result == if scaled < 1 then 1 else scaled
    {
      if delay <= 0 {
        return delay;
      }
      var factor := 0.8 + stream(position) * 0.4;
      position := position + 1;
      result := (delay as real * factor).Floor;
      if result < 1 {
        return 1;
      }
    }
  }

  function Jitter(draw: real): Option<Duration -> Duration> {
    Some((delay: Duration) => Jittered(delay, draw))
  }

  lemma JitterBounds(delay: Duration, draw: real)
    requires delay > 0 && IsDraw(draw)
    ensures 1 <= Jittered(delay, draw)
    ensures 4 * delay - 5 < 5 * Jittered(delay, draw) < 6 * delay
  {
    var exact := delay as real * (0.8 + draw * 0.4);
    Scaled(delay as real, 0.8, 0.8 + draw * 0.4, 1.2);
    assert exact - 1.0 < exact.Floor as real <= exact;
  }

  // Multiplication by a positive number keeps order.
  lemma Scaled(d: real, low: real, factor: real, high: real)
    requires d > 0.0 && low <= factor < high
    ensures d * low <= d * factor < d * high
  {
    Monotone(d, low, factor);
    Monotone(d, factor, high);
  }

  lemma Monotone(d: real, a: real, b: real)
    requires d > 0.0
    ensures a <= b ==> d * a <= d * b
    ensures a < b ==> d * a < d * b
  {
    if a <= b {
      Products(d, b - a);
      assert d * (b - a) == d * b - d * a;
    }
  }

  lemma Products(x: real, y: real)
    requires x > 0.0 && y >= 0.0
    ensures x * y >= 0.0 && (y > 0.0 ==> x * y > 0.0)
  {}

  // The values a jittered delay takes are exactly the whole numbers from four fifths of the delay,
  // rounded down but at least 1, up to six fifths, excluded.
  lemma JitterRange(delay: Duration, n: Duration)
    requires delay > 0
    ensures (exists draw | IsDraw(draw) :: Jittered(delay, draw) == n) <==>
      1 <= n && 5 * n < 6 * delay && 5 * n > 4 * delay - 5
  {
    if 1 <= n && 5 * n < 6 * delay && 5 * n > 4 * delay - 5 {
      var draw := DrawFor(delay, n);
      assert IsDraw(draw) && Jittered(delay, draw) == n;
    }
    forall draw | IsDraw(draw) && Jittered(delay, draw) == n
      ensures 1 <= n && 5 * n < 6 * delay && 5 * n > 4 * delay - 5
    {
      JitterBounds(delay, draw);
    }
  }

  lemma DrawFor(delay: Duration, n: Duration) returns (draw: real)
    requires delay > 0 && 1 <= n && 5 * n < 6 * delay && 5 * n > 4 * delay - 5
    ensures IsDraw(draw) && Jittered(delay, draw) == n
  {
    if 5 * n < 4 * delay {
      draw := 0.0;
      assert delay as real * (0.8 + draw * 0.4) == delay as real * 0.8;
      JitterBounds(delay, draw);
    } else {
      var factor := Quotient(n as real, delay as real, 0.8, 1.2);
      draw := (factor - 0.8) / 0.4;
      assert 0.8 + draw * 0.4 == factor;
      assert delay as real * (0.8 + draw * 0.4) == n as real;
      assert (n as real).Floor == n;
    }
  }

  // A larger draw never waits for less.
  lemma JitterGrows(delay: Duration, a: real, b: real)
    requires IsDraw(a) && IsDraw(b) && a <= b
    ensures Jittered(delay, a) <= Jittered(delay, b)
  {
    if delay > 0 {
      Monotone(delay as real, 0.8 + a * 0.4, 0.8 + b * 0.4);
    }
  }

  // Some draw pushes the delay past `limit` if and only if six fifths of it exceed limit + 1.
  lemma JitterExceeds(delay: Duration, limit: Duration)
    requires delay > 0 && limit >= delay
    ensures (exists draw | IsDraw(draw) :: Jittered(delay, draw) > limit) <==> 6 * delay > 5 * (limit + 1)
  {
    if 6 * delay > 5 * (limit + 1) {
      var draw := PushingDraw(delay, limit);
      assert IsDraw(draw) && Jittered(delay, draw) > limit;
    }
    forall draw | IsDraw(draw) && Jittered(delay, draw) > limit ensures 6 * delay > 5 * (limit + 1) {
      JitterBounds(delay, draw);
    }
  }

  lemma PushingDraw(delay: Duration, limit: Duration) returns (draw: real)
    requires delay > 0 && limit >= delay && 6 * delay > 5 * (limit + 1)
    ensures IsDraw(draw) && Jittered(delay, draw) > limit
  {
    var factor := Quotient((limit + 1) as real, delay as real, 0.8, 1.2);
    draw := (factor - 0.8) / 0.4;
    assert 0.8 + draw * 0.4 == factor;
    assert delay as real * (0.8 + draw * 0.4) == (limit + 1) as real;
    assert ((limit + 1) as real).Floor == limit + 1;
  }

  lemma Quotient(x: real, d: real, low: real, high: real) returns (q: real)
    requires d > 0.0 && d * low <= x < d * high
    ensures d * q == x && low <= q < high
  {
    q := x / d;
    Monotone(d, q, low);
    Monotone(d, high, q);
  }

  // ---------- the retry decision ----------

  // The delay configured for an attempt: the last one serves all further attempts.
  function Configured(policy: RetryPolicy, attempt: int): Duration
    requires 1 <= attempt && policy.delays != []
  {
    policy.delays[if attempt <= |policy.delays| then attempt - 1 else |policy.delays| - 1]
  }

  // The retry jitter's only effect on a decision is the value it returns for the delay in question.
  function JitterValue(policy: RetryPolicy, attempt: int, draw: real): Duration {
    if attempt < 1 || policy.delays == [] then 0
    else Jittered(Configured(policy, attempt), draw)
  }

  lemma JitterByValue(policy: RetryPolicy, attempt: int, result: SendResult, at: Time, draw: real)
    ensures Decide(policy, attempt, result, at, Jitter(draw)) ==
            Decide(policy, attempt, result, at, Some((d: Duration) => JitterValue(policy, attempt, draw)))
  {}

  predicate Usable(retryAfter: Option<Time>, now: Time) {
    retryAfter.Some? && retryAfter.value > now
  }

  // Under a validated policy a retry is scheduled below the attempt budget, strictly later than
  // now and within the lifetime: at the supplier's own time if it names a usable one, and
  // otherwise within 20% of the configured delay, up to truncation.
  lemma ScheduledRetry(policy: RetryPolicy, attempt: int, retryAfter: Option<Time>, now: Time, draw: real)
    requires ValidPolicy(policy) && IsDraw(draw)
    requires NextAttempt(policy, attempt, retryAfter, now, Jitter(draw)).Some?
    ensures var next := NextAttempt(policy, attempt, retryAfter, now, Jitter(draw)).value;
            && 1 <= attempt < policy.maxAttempts
            && now < next <= now + policy.lifetime
            && (retryAfter.Some? && retryAfter.value > now ==> next == retryAfter.value)
            && (retryAfter.None? || retryAfter.value <= now ==>
                  var delay := policy.delays[if attempt < |policy.delays| then attempt - 1 else |policy.delays| - 1];
                  4 * delay - 5 < 5 * (next - now) < 6 * delay)
  {
    if !Usable(retryAfter, now) {
      JitterBounds(Configured(policy, attempt), draw);
    }
  }

  // And it is refused exactly when the budget is used up, the supplier asks for more than a
  // lifetime's wait, or the jittered delay has grown past the lifetime.
  lemma RefusedRetry(policy: RetryPolicy, attempt: int, retryAfter: Option<Time>, now: Time, draw: real)
    requires ValidPolicy(policy) && IsDraw(draw) && attempt >= 1
    ensures NextAttempt(policy, attempt, retryAfter, now, Jitter(draw)).None? <==>
      || attempt >= policy.maxAttempts
      || (retryAfter.Some? && retryAfter.value > now && retryAfter.value > now + policy.lifetime)
      || ((retryAfter.None? || retryAfter.value <= now)
          && Jittered(policy.delays[if attempt < |policy.delays| then attempt - 1 else |policy.delays| - 1], draw)
               > policy.lifetime)
  {
    if attempt < policy.maxAttempts {
      JitterBounds(Configured(policy, attempt), draw);
    }
  }

  // A validated delay is honoured whatever the jitter draws if and only if it stays clear of the
  // lifetime by the jitter's fifth: validation alone does not promise a retry.
  lemma DelaySurvivesJitter(policy: RetryPolicy, attempt: int, now: Time)
    requires ValidPolicy(policy) && 1 <= attempt < policy.maxAttempts
    ensures (forall draw | IsDraw(draw) :: NextAttempt(policy, attempt, None, now, Jitter(draw)).Some?)
      <==> 6 * Configured(policy, attempt) <= 5 * (policy.lifetime + 1)
  {
    var delay := Configured(policy, attempt);
    JitterExceeds(delay, policy.lifetime);
    forall draw | IsDraw(draw)
      ensures NextAttempt(policy, attempt, None, now, Jitter(draw)).Some? <==> Jittered(delay, draw) <= policy.lifetime
    {
      RefusedRetry(policy, attempt, None, now, draw);
    }
  }

  // A configured delay equal to the lifetime passes validation, yet most draws refuse the retry.
  lemma LongestDelayIsRefused()
    ensures var policy := RetryPolicy(2, 1000, [1000]);
            ValidPolicy(policy) && NextAttempt(policy, 1, None, 0, Jitter(0.75)).None?
  {
    assert Jittered(1000, 0.75) == 1100;
  }

  // What a supplier's answer makes of the task. 2xx delivers it. 408, 425, 429 and 5xx, or no answer
  // that the sender calls retryable, make it wait, if a retry can be scheduled. Everything else, and
  // a retry that is refused, ends it.
  lemma StatusDecides(t: Task, result: SendResult, at: Time, jittered: Duration)
    requires SenderMayReturn(result)
    ensures var jitter := Some((d: Duration) => jittered);
      var next := NextAttempt(t.request.policy, t.attempts, result.retryAfter, at, jitter);
      var row := ApplyRow(t, Decide(t.request.policy, t.attempts, result, at, jitter));
      && (row.status == Delivered <==> 200 <= result.httpStatus <= 299)
      && (row.status == RetryWait <==>
            && next.Some?
            && (result.httpStatus in {408, 425, 429} || 500 <= result.httpStatus <= 599
                || (result.httpStatus == 0 && result.outcome == Retryable)))
      && (row.status == RetryWait ==> row.nextAttemptAt == next)
      && (row.status == Delivered || row.status == RetryWait || row.status == Dead)
  {}

  // ---------- the task's own deadline ----------

  // Every draw that schedules a retry schedules it before `deadline`.
  ghost predicate RespectsDeadline(policy: RetryPolicy, attempt: int, retryAfter: Option<Time>, now: Time,
                                   deadline: Time) {
    forall draw | IsDraw(draw) && NextAttempt(policy, attempt, retryAfter, now, Jitter(draw)).Some? ::
      NextAttempt(policy, attempt, retryAfter, now, Jitter(draw)).value < deadline
  }

  // What the decision would have to check: a usable Retry-After against the deadline (or refuse
  // it for its length), and a configured delay against what is left, less the jitter's fifth.
  predicate LeavesRoom(policy: RetryPolicy, attempt: int, retryAfter: Option<Time>, now: Time, deadline: Time)
    requires 1 <= attempt && policy.delays != []
  {
    if Usable(retryAfter, now)
    then retryAfter.value < deadline || retryAfter.value > now + policy.lifetime
    else 6 * Configured(policy, attempt) <= 5 * (deadline - now)
  }

  // The decision measures every wait against the whole lifetime, not against what is left of it.
  // For a task created at `created` it stays before the deadline if and only if there happens to
  // be room.
  lemma DeadlineRespected(policy: RetryPolicy, attempt: int, retryAfter: Option<Time>, created: Time, now: Time)
    requires ValidPolicy(policy) && 1 <= attempt < policy.maxAttempts && created <= now
    ensures RespectsDeadline(policy, attempt, retryAfter, now, created + policy.lifetime)
      <==> LeavesRoom(policy, attempt, retryAfter, now, created + policy.lifetime)
  {
    var deadline := created + policy.lifetime;
    if Usable(retryAfter, now) {
      assert IsDraw(0.0);
      assert NextAttempt(policy, attempt, retryAfter, now, Jitter(0.0)) ==
        if retryAfter.value - now > policy.lifetime then None else retryAfter;
    } else if LeavesRoom(policy, attempt, retryAfter, now, deadline) {
      forall draw | IsDraw(draw) && NextAttempt(policy, attempt, retryAfter, now, Jitter(draw)).Some?
        ensures NextAttempt(policy, attempt, retryAfter, now, Jitter(draw)).value < deadline
      {
        JitterBounds(Configured(policy, attempt), draw);
      }
    } else {
      var draw := LateDraw(Configured(policy, attempt), deadline - now, policy.lifetime);
      assert NextAttempt(policy, attempt, retryAfter, now, Jitter(draw)) ==
        Some(now + Jittered(Configured(policy, attempt), draw));
    }
  }

  // A draw that uses up what is left without passing the lifetime.
  lemma LateDraw(delay: Duration, left: Duration, lifetime: Duration) returns (draw: real)
    requires 0 < delay <= lifetime && left <= lifetime && 6 * delay > 5 * left
    ensures IsDraw(draw) && left <= Jittered(delay, draw) <= lifetime
  {
    if 5 * left <= 4 * delay {
      draw := 0.0;
      assert delay as real * (0.8 + draw * 0.4) == delay as real * 0.8;
      JitterBounds(delay, draw);
    } else {
      var factor := Quotient(left as real, delay as real, 0.8, 1.2);
      draw := (factor - 0.8) / 0.4;
      assert 0.8 + draw * 0.4 == factor;
      assert delay as real * (0.8 + draw * 0.4) == left as real;
      assert (left as real).Floor == left;
    }
  }

  // ---------- the earliest retry ----------

  // From a moment `floor` on, some decision schedules a retry before the deadline: at the time the
  // supplier asked for, or, if that is past, after the shortest jittered delay.
  predicate RetriesInTime(policy: RetryPolicy, attempt: int, retryAfter: Option<Time>, floor: Time, deadline: Time) {
    && 1 <= attempt < policy.maxAttempts && policy.delays != []
    && if Usable(retryAfter, floor) then retryAfter.value < deadline
       else
         var wait := Jittered(Configured(policy, attempt), 0.0);
         0 <= wait <= policy.lifetime && floor + wait < deadline
  }

  lemma JitterLeast(delay: Duration, draw: real)
    requires IsDraw(draw)
    ensures Jittered(delay, 0.0) <= Jittered(delay, draw)
    ensures Jittered(delay, draw) >= 0 ==> Jittered(delay, 0.0) >= 0
  {
    if delay > 0 {
      Monotone(delay as real, 0.8 + 0.0 * 0.4, 0.8 + draw * 0.4);
    }
  }

  // The decision taken at `at` with a draw.
  predicate RetriesBefore(policy: RetryPolicy, attempt: int, retryAfter: Option<Time>, at: Time, draw: real,
                          deadline: Time) {
    var next := NextAttempt(policy, attempt, retryAfter, at, Jitter(draw));
    next.Some? && next.value < deadline
  }

  lemma LateDecision(policy: RetryPolicy, attempt: int, retryAfter: Option<Time>, floor: Time, at: Time, draw: real,
                     deadline: Time)
    requires IsDraw(draw) && at >= floor && RetriesBefore(policy, attempt, retryAfter, at, draw, deadline)
    ensures RetriesInTime(policy, attempt, retryAfter, floor, deadline)
  {
    JitterLeast(Configured(policy, attempt), draw);
  }

  lemma EarliestDecision(policy: RetryPolicy, attempt: int, retryAfter: Option<Time>, floor: Time, deadline: Time)
    returns (at: Time)
    requires policy.lifetime > 0 && RetriesInTime(policy, attempt, retryAfter, floor, deadline)
    ensures at >= floor && RetriesBefore(policy, attempt, retryAfter, at, 0.0, deadline)
  {
    at := if Usable(retryAfter, floor) then retryAfter.value - 1 else floor;
  }

  // Both branches do pass it: a task created at 0 with 600 ns of its lifetime left is told to wait
  // 2000 ns by the supplier, or 1000 ns by its own policy.
  lemma RetryMayPassDeadline()
    ensures var policy, created, now := RetryPolicy(3, 3600, [1000]), 0, 3000;
            && ValidPolicy(policy)
            && NextAttempt(policy, 1, Some(5000), now, None) == Some(5000)
            && NextAttempt(policy, 1, None, now, None) == Some(4000)
            && 4000 > created + policy.lifetime
  {}
}
