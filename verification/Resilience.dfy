/** Circuit breaker, health score and retry of one provider. Clock readings and latencies are reals. */
module Resilience {
  // --------------------------------------------------------------- circuit breaker

  datatype BreakerState = Closed | Open | HalfOpen

  datatype Breaker = Breaker(threshold: int, cooldown: real, failures: nat, state: BreakerState, lastFailure: real) {
    /** The `state` getter: an open breaker whose cooldown has passed becomes half open. */
    function Observe(now: real): Breaker {
      if state == Open && now - lastFailure >= cooldown then this.(state := HalfOpen) else this
    }

    function Succeed(): Breaker {
      this.(failures := 0, state := Closed)
    }

    function Fail(now: real): Breaker {
      this.(failures := failures + 1, lastFailure := now,
            state := if failures + 1 >= threshold then Open else state)
    }
  }

  function NewBreaker(threshold: int, cooldown: real): Breaker {
    Breaker(threshold, cooldown, 0, Closed, 0.0)
  }

  /** Everything that ever happens to a breaker: reads of its state, successes, failures. */
  datatype Event = Read(at: real) | Success(at: real) | Failure(at: real)

  function Replay(threshold: int, cooldown: real, trace: seq<Event>): Breaker {
    if trace == [] then NewBreaker(threshold, cooldown)
    else
      var b := Replay(threshold, cooldown, trace[..|trace| - 1]);
      match trace[|trace| - 1]
      case Read(at) => b.Observe(at)
      case Success(_) => b.Succeed()
      case Failure(at) => b.Fail(at)
  }

  /** Failures since the last success. */
  function Trailing(trace: seq<Event>): nat {
    if trace == [] then 0
    else match trace[|trace| - 1]
      case Read(_) => Trailing(trace[..|trace| - 1])
      case Success(_) => 0
      case Failure(_) => Trailing(trace[..|trace| - 1]) + 1
  }

  function LastFailure(trace: seq<Event>): real {
    if trace == [] then 0.0
    else match trace[|trace| - 1]
      case Failure(at) => at
      case _ => LastFailure(trace[..|trace| - 1])
  }

  /** The state as a function of the history of outcomes and of the time, not of when it was looked at. */
  function Ideal(threshold: int, cooldown: real, trace: seq<Event>, now: real): BreakerState {
    if Trailing(trace) == 0 || Trailing(trace) < threshold then Closed
    else if now - LastFailure(trace) < cooldown then Open
    else HalfOpen
  }

  ghost predicate Chronological(trace: seq<Event>) {
    forall i, j :: 0 <= i < j < |trace| ==> trace[i].at <= trace[j].at
  }

  lemma {:induction false} ReplayTracks(threshold: int, cooldown: real, trace: seq<Event>)
    requires Chronological(trace)
    ensures var b := Replay(threshold, cooldown, trace);
            && b.threshold == threshold && b.cooldown == cooldown
            && b.failures == Trailing(trace) && b.lastFailure == LastFailure(trace)
            && (b.state == Closed <==> Trailing(trace) == 0 || Trailing(trace) < threshold)
            && (b.state == HalfOpen ==> trace != [] && trace[|trace| - 1].at - LastFailure(trace) >= cooldown)
  {
    if trace != [] {
      ReplayTracks(threshold, cooldown, trace[..|trace| - 1]);
    }
  }

  /**
    The lazy transition is invisible: whatever reads came before, a breaker looked at `now`
    is closed, open or half open exactly as its history of outcomes says.
  */
  lemma LazyStateIsIdeal(threshold: int, cooldown: real, trace: seq<Event>, now: real)
    requires Chronological(trace) && (trace != [] ==> trace[|trace| - 1].at <= now)
    ensures Replay(threshold, cooldown, trace).Observe(now).state == Ideal(threshold, cooldown, trace, now)
  {
    ReplayTracks(threshold, cooldown, trace);
  }

  /** One failure while half open reopens the breaker at once, for a full cooldown. */
  lemma HalfOpenFailureReopens(threshold: int, cooldown: real, trace: seq<Event>, now: real, later: real)
    requires Chronological(trace) && (trace != [] ==> trace[|trace| - 1].at <= now)
    requires Ideal(threshold, cooldown, trace, now) == HalfOpen && now <= later < now + cooldown
    ensures Ideal(threshold, cooldown, trace + [Failure(now)], later) == Open
  {
    assert (trace + [Failure(now)])[..|trace|] == trace;
  }

  class ProviderCircuitBreaker {
    const threshold: int
    const cooldown: real
    var failureCount: nat
    var current: BreakerState
    var lastFailureTime: real

    constructor (threshold: int, cooldown: real)
      ensures Snapshot() == NewBreaker(threshold, cooldown)
    {
      this.threshold, this.cooldown := threshold, cooldown;
      failureCount, current, lastFailureTime := 0, Closed, 0.0;
    }

    function Snapshot(): Breaker
      reads this
    {
      Breaker(threshold, cooldown, failureCount, current, lastFailureTime)
    }

    method State(now: real) returns (s: BreakerState)
      modifies this
      ensures Snapshot() == old(Snapshot()).Observe(now) && s == Snapshot().state
    {
      if current == Open {
        if now - lastFailureTime >= cooldown {
          current := HalfOpen;
        }
      }
      s := current;
    }

    method IsAvailable(now: real) returns (r: bool)
      modifies this
      ensures Snapshot() == old(Snapshot()).Observe(now) && (r <==> Snapshot().state != Open)
    {
      var s := State(now);
      r := s != Open;
    }

    method RecordSuccess()
      modifies this
      ensures Snapshot() == old(Snapshot()).Succeed()
    {
      failureCount := 0;
      current := Closed;
    }

    method RecordFailure(now: real)
      modifies this
      ensures Snapshot() == old(Snapshot()).Fail(now)
    {
      failureCount := failureCount + 1;
      lastFailureTime := now;
      if failureCount >= threshold {
        current := Open;
      }
    }
  }

  // ------------------------------------------------------------------ health score

  datatype Metrics = Metrics(successes: nat, failures: nat, latency: real) {
    function SuccessRate(): real {
      successes as real / (if successes + failures > 0 then successes + failures else 1) as real
    }

    function AverageLatency(): real {
      latency / (if successes > 0 then successes else 1) as real
    }
  }

  /** Round to three decimals, ties to even. */
  function Round3(x: real): real {
    var y := x * 1000.0;
    var low := y.Floor;
    var d := y - low as real;
    (if d < 0.5 || (d == 0.5 && low % 2 == 0) then low else low + 1) as real / 1000.0
  }

  /** Rounding moves a value by at most half a thousandth, to a whole number of them, a tie to an even one. */
  lemma RoundsToNearest(x: real) returns (k: int)
    ensures Round3(x) == k as real / 1000.0 && -0.0005 <= Round3(x) - x <= 0.0005
    ensures x * 1000.0 - k as real == 0.5 || x * 1000.0 - k as real == -0.5 ==> k % 2 == 0
  {
    var y := x * 1000.0;
    var d := y - y.Floor as real;
    k := if d < 0.5 || (d == 0.5 && y.Floor % 2 == 0) then y.Floor else y.Floor + 1;
  }

  /** The score of an already observed breaker: nothing while open, halved while half open. */
  function Score(b: Breaker, m: Metrics): real {
    if b.state == Open then 0.0
    else
      var latencyFactor := if 1.0 - m.AverageLatency() / 5000.0 > 0.0 then 1.0 - m.AverageLatency() / 5000.0 else 0.0;
      Round3((m.SuccessRate() * 0.6 + latencyFactor * 0.4) * (if b.state == Closed then 1.0 else 0.5))
  }

  lemma RoundKeepsBounds(x: real, low: int, high: int)
    requires low as real / 1000.0 <= x <= high as real / 1000.0
    ensures low as real / 1000.0 <= Round3(x) <= high as real / 1000.0
  {
    var y := x * 1000.0;
    assert low as real <= y <= high as real;
    assert low <= y.Floor <= high;
    if y.Floor == high {
      assert y == high as real;
    }
  }

  lemma QuotientAtLeast(a: real, b: real, c: real)
    requires b > 0.0 && a >= c * b
    ensures a / b >= c
  {
  }

  lemma QuotientAtMost(a: real, b: real, c: real)
    requires b > 0.0 && a <= c * b
    ensures a / b <= c
  {
  }

  lemma RateBounds(m: Metrics)
    ensures 0.0 <= m.SuccessRate() <= 1.0
  {
    var total := if m.successes + m.failures > 0 then m.successes + m.failures else 1;
    QuotientAtLeast(m.successes as real, total as real, 0.0);
    QuotientAtMost(m.successes as real, total as real, 1.0);
  }

  /** Every score a provider can ever have lies between 0 and 1. */
  lemma ScoreInUnitInterval(b: Breaker, m: Metrics)
    requires m.latency >= 0.0
    ensures 0.0 <= Score(b, m) <= 1.0
  {
    RateBounds(m);
    var average := m.AverageLatency();
    assert average >= 0.0;
    var latencyFactor := if 1.0 - average / 5000.0 > 0.0 then 1.0 - average / 5000.0 else 0.0;
    var raw := m.SuccessRate() * 0.6 + latencyFactor * 0.4;
    RoundKeepsBounds(raw, 0, 1000);
    RoundKeepsBounds(raw * 0.5, 0, 1000);
  }

  /** At least two successes for each failure, or no success yet. */
  predicate GoodRecord(m: Metrics) {
    m.successes == 0 || m.successes >= 2 * m.failures
  }

  /**
    An available provider that has succeeded at least twice as often as it failed, or that
    has never succeeded, passes the quality floor of 0.2, slow or half open though it be.
  */
  lemma GoodRecordPassesFloor(b: Breaker, m: Metrics)
    requires b.state != Open && m.latency >= 0.0 && (m.successes == 0 ==> m.latency == 0.0)
    requires GoodRecord(m)
    ensures Score(b, m) >= 0.2
  {
    RateBounds(m);
    var average := m.AverageLatency();
    var latencyFactor := if 1.0 - average / 5000.0 > 0.0 then 1.0 - average / 5000.0 else 0.0;
    var raw := m.SuccessRate() * 0.6 + latencyFactor * 0.4;
    assert average >= 0.0 && 0.0 <= latencyFactor <= 1.0;
    if m.successes == 0 {
      assert latencyFactor == 1.0;
    } else {
      TwoThirds(m);
    }
    assert 0.4 <= raw <= 1.0;
    RoundKeepsBounds(raw, 200, 1000);
    RoundKeepsBounds(raw * 0.5, 200, 1000);
  }

  lemma TwoThirds(m: Metrics)
    requires m.successes > 0 && m.successes >= 2 * m.failures
    ensures m.SuccessRate() * 0.6 >= 0.4
  {
    var total := (m.successes + m.failures) as real;
    assert 3.0 * m.successes as real >= 2.0 * total;
    QuotientAtLeast(m.successes as real, total, 2.0 / 3.0);
  }

  class ProviderMetrics {
    var successCount: nat
    var failureCount: nat
    var totalLatency: real

    constructor ()
      ensures Snapshot() == Metrics(0, 0, 0.0)
    {
      successCount, failureCount, totalLatency := 0, 0, 0.0;
    }

    function Snapshot(): Metrics
      reads this
    {
      Metrics(successCount, failureCount, totalLatency)
    }

    method RecordSuccess(latency: real)
      modifies this
      ensures Snapshot() == old(Snapshot()).(successes := old(successCount) + 1, latency := old(totalLatency) + latency)
    {
      successCount := successCount + 1;
      totalLatency := totalLatency + latency;
    }

    method RecordFailure()
      modifies this
      ensures Snapshot() == old(Snapshot()).(failures := old(failureCount) + 1)
    {
      failureCount := failureCount + 1;
    }

    /** Reads the breaker twice, as the code does; `first` and `second` are the clock readings. */
    method CalculateHealthScore(cb: ProviderCircuitBreaker, first: real, second: real) returns (score: real)
      modifies cb
      ensures cb.Snapshot() == old(cb.Snapshot()).Observe(first)
      ensures score == Score(old(cb.Snapshot()).Observe(first), Snapshot())
    {
      var available := cb.IsAvailable(first);
      if !available {
        return 0.0;
      }
      var state := cb.State(second);
      var multiplier := if state == Closed then 1.0 else 0.5;
      var rate := Snapshot().SuccessRate();
      var latency := Snapshot().AverageLatency();
      var factor := if 1.0 - latency / 5000.0 > 0.0 then 1.0 - latency / 5000.0 else 0.0;
      score := Round3((rate * 0.6 + factor * 0.4) * multiplier);
    }
  }

  // ------------------------------------------------------------------------- retry

  /** How one attempt at a provider can end. */
  datatype Outcome = Answered | Transient | TimedOut | Fatal | Unexpected

  predicate Retryable(o: Outcome) {
    o == Transient || o == TimedOut
  }

  /** What comes back from the wire. */
  datatype Wire = NoReply | Reply(status: int, parses: bool) | Broken

  /**
    `_single_attempt`: a 429 is fatal; a 400 is raised as a ValueError inside the `try` and
    so comes out transient, as does every other status that is not a success.
  */
  function Classify(w: Wire): Outcome {
    match w
    case NoReply => TimedOut
    case Broken => Transient
    case Reply(status, parses) =>
      if status == 429 then Fatal
      else if 200 <= status < 300 && parses then Answered
      else Transient
  }

  function Pow2(n: nat): nat {
    if n == 0 then 1 else 2 * Pow2(n - 1)
  }

  /** Number of attempts made when each would end as `script` says. */
  function Attempts(script: seq<Outcome>, maxRetries: nat): nat
    requires |script| == maxRetries + 1
  {
    if maxRetries == 0 || !Retryable(script[0]) then 1 else 1 + Attempts(script[1..], maxRetries - 1)
  }

  lemma {:induction false} AttemptsMeaning(script: seq<Outcome>, maxRetries: nat)
    requires |script| == maxRetries + 1
    ensures var n := Attempts(script, maxRetries);
            && 1 <= n <= maxRetries + 1
            && (forall i :: 0 <= i < n - 1 ==> Retryable(script[i]) && script[i] in {Transient, TimedOut})
            && (Retryable(script[n - 1]) ==> n == maxRetries + 1)
            && (n <= maxRetries ==> script[n - 1] in {Answered, Fatal, Unexpected})
  {
    if maxRetries > 0 && Retryable(script[0]) {
      AttemptsMeaning(script[1..], maxRetries - 1);
    }
  }

  /** The retry loop: stops at the first outcome that is not retryable, sleeping 1, 2, 4, ... base delays between. */
  method RetryWithBackoff(script: seq<Outcome>, maxRetries: nat, baseDelay: real)
    returns (result: Outcome, attempts: nat, slept: real)
    requires |script| == maxRetries + 1
    ensures 1 <= attempts <= maxRetries + 1 && result == script[attempts - 1]
    ensures attempts == Attempts(script, maxRetries)
    ensures slept == baseDelay * (Pow2(attempts - 1) - 1) as real
    ensures baseDelay >= 0.0 ==> slept <= baseDelay * (Pow2(maxRetries) - 1) as real
  {
    slept := 0.0;
    attempts := 0;
    AttemptsMeaning(script, maxRetries);
    for attempt := 0 to maxRetries + 1
      invariant attempts == attempt
      invariant forall i :: 0 <= i < attempt ==> Retryable(script[i])
      invariant attempt <= maxRetries
      invariant slept == baseDelay * (Pow2(attempt) - 1) as real
    {
      result := script[attempt];
      attempts := attempt + 1;
      Pow2Monotone(attempt, maxRetries);
      if baseDelay >= 0.0 {
        ScaleMonotone(baseDelay, Pow2(attempt) - 1, Pow2(maxRetries) - 1);
      }
      if !Retryable(result) || attempt == maxRetries {
        assert attempts == Attempts(script, maxRetries);
        return;
      }
      var delay := baseDelay * Pow2(attempt) as real;
      slept := slept + delay;
    }
  }

  lemma ScaleMonotone(x: real, a: int, b: int)
    requires x >= 0.0 && a <= b
    ensures x * a as real <= x * b as real
  {
  }

  lemma {:induction false} Pow2Monotone(a: nat, b: nat)
    requires a <= b
    ensures 1 <= Pow2(a) <= Pow2(b)
    decreases b
  {
    if a < b {
      Pow2Monotone(a, b - 1);
    } else if a > 0 {
      Pow2Monotone(a - 1, b - 1);
    }
  }

  /** What ends the attempts: a success that parses, or a 429. */
  predicate Conclusive(w: Wire) {
    w.Reply? && ((200 <= w.status < 300 && w.parses) || w.status == 429)
  }

  /** The attempts go on to the first conclusive answer from the wire, or to the limit; only a success answers. */
  lemma WireDecides(wires: seq<Wire>, maxRetries: nat)
    requires |wires| == maxRetries + 1
    ensures var script := seq(maxRetries + 1, i requires 0 <= i <= maxRetries => Classify(wires[i]));
            var n := Attempts(script, maxRetries);
            && 1 <= n <= maxRetries + 1
            && (forall i :: 0 <= i < n - 1 ==> !Conclusive(wires[i]))
            && (n <= maxRetries ==> Conclusive(wires[n - 1]))
            && (script[n - 1] == Answered <==> Conclusive(wires[n - 1]) && wires[n - 1].status != 429)
            && (script[n - 1] == TimedOut <==> wires[n - 1] == NoReply)
  {
    var script := seq(maxRetries + 1, i requires 0 <= i <= maxRetries => Classify(wires[i]));
    AttemptsMeaning(script, maxRetries);
    var n := Attempts(script, maxRetries);
    forall i | 0 <= i < n - 1
      ensures !Conclusive(wires[i])
    {
      assert script[i] == Classify(wires[i]);
    }
  }

  /**
    The documentation says client errors are not retried. They are: a provider that keeps
    answering with any client error but 429 is tried the full number of times.
  */
  lemma ClientErrorsAreRetried(status: int, maxRetries: nat)
    requires 400 <= status < 500
    ensures var script := seq(maxRetries + 1, i => Classify(Reply(status, true)));
            Attempts(script, maxRetries) == if status == 429 then 1 else maxRetries + 1
  {
    AttemptsMeaning(seq(maxRetries + 1, i => Classify(Reply(status, true))), maxRetries);
  }
}
