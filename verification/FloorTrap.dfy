/**
  One provider under overlapping calls: any number of attempts in flight, starting and
  finishing in any order. When can it be left untried for good?
*/
module FloorTrap {
  import opened FallbackChain
  import opened Resilience

  /** A provider and the attempts at it that have started and not finished. */
  datatype Lane = Lane(p: Provider, running: nat)

  /** What overlapping calls do to it: a ranking looks; a call reaches its gates; an attempt ends. */
  datatype Move =
    | Look(now: real)
    | Start(now: real)
    | Finish(answered: bool, now: real, latency: real)

  predicate Starts(l: Lane, m: Move) {
    m.Start? && Gated(l.p.Observe(m.now))
  }

  function Step(l: Lane, m: Move): Lane {
    match m
    case Look(now) => l.(p := l.p.Observe(now))
    case Start(now) => Lane(l.p.Observe(now), if Starts(l, m) then l.running + 1 else l.running)
    case Finish(answered, now, latency) =>
      if l.running == 0 then l
      else if answered then
        Lane(Provider(l.p.breaker.Succeed(),
                      l.p.metrics.(successes := l.p.metrics.successes + 1, latency := l.p.metrics.latency + latency)),
             l.running - 1)
      else
        Lane(Provider(l.p.breaker.Fail(now), l.p.metrics.(failures := l.p.metrics.failures + 1)), l.running - 1)
  }

  /** An attempt's end is the record one call of `generate` makes. */
  lemma FinishRecords(l: Lane, v: Visit, maxRetries: nat)
    requires l.running > 0 && v.WellFormed(maxRetries)
    ensures var l' := Step(l, Finish(v.Result(maxRetries) == Answered, v.doneAt, v.latency));
            && l' == Lane(Recorded(l.p, v, maxRetries), l.running - 1)
            && Records(l.p, l'.p, v.Result(maxRetries) == Answered, v.doneAt, v.latency)
  {
  }

  function After(l: Lane, run: seq<Move>): Lane
    decreases |run|
  {
    if run == [] then l else After(Step(l, run[0]), run[1..])
  }

  /** Latencies are not negative. */
  predicate Real(run: seq<Move>) {
    forall n :: 0 <= n < |run| && run[n].Finish? ==> run[n].latency >= 0.0
  }

  /** Somewhere in the run an attempt at the provider starts. */
  predicate Tried(l: Lane, run: seq<Move>)
    decreases |run|
  {
    run != [] && (Starts(l, run[0]) || Tried(Step(l, run[0]), run[1..]))
  }

  // ------------------------------------------------------------- scores in order

  lemma Quotients(a: real, b: real, c: real, d: real)
    requires b > 0.0 && d > 0.0 && a * d <= c * b
    ensures a / b <= c / d
  {
    var q := c / d;
    assert q * d == c;
    assert a * d <= q * b * d;
    QuotientAtMost(a, b, q);
  }

  /** A record is at least as good: no fewer successes, no more failures, no more total latency. */
  predicate AsGood(m: Metrics, n: Metrics) {
    m.successes <= n.successes && n.failures <= m.failures && 0.0 <= n.latency <= m.latency
  }

  lemma RateOrder(m: Metrics, n: Metrics)
    requires AsGood(m, n)
    ensures m.SuccessRate() <= n.SuccessRate()
  {
    RateBounds(m);
    RateBounds(n);
    if m.successes > 0 {
      var s, f, s', f' := m.successes as real, m.failures as real, n.successes as real, n.failures as real;
      Products(s, f', s', f);
      Quotients(s, s + f, s', s' + f');
      assert m.SuccessRate() == s / (s + f) && n.SuccessRate() == s' / (s' + f');
    } else {
      var total := if m.successes + m.failures > 0 then m.successes + m.failures else 1;
      QuotientAtMost(m.successes as real, total as real, 0.0);
    }
  }

  lemma Products(s: real, f': real, s': real, f: real)
    requires 0.0 <= s <= s' && 0.0 <= f' <= f
    ensures s * (s' + f') <= s' * (s + f)
  {
    assert s * f' <= s' * f' <= s' * f;
  }

  lemma LatencyOrder(m: Metrics, n: Metrics)
    requires AsGood(m, n)
    ensures n.AverageLatency() <= m.AverageLatency()
  {
    var k := (if m.successes > 0 then m.successes else 1) as real;
    var k' := (if n.successes > 0 then n.successes else 1) as real;
    assert 0.0 < k <= k';
    assert n.latency * k <= n.latency * k' <= m.latency * k';
    Quotients(n.latency, k', m.latency, k);
  }

  lemma RoundOrder(x: real, y: real)
    requires x <= y
    ensures Round3(x) <= Round3(y)
  {
    var a, b := x * 1000.0, y * 1000.0;
    assert a.Floor <= b.Floor;
  }

  function Raw(m: Metrics): real {
    m.SuccessRate() * 0.6
    + (if 1.0 - m.AverageLatency() / 5000.0 > 0.0 then 1.0 - m.AverageLatency() / 5000.0 else 0.0) * 0.4
  }

  /** The score a record earns while closed, or, halved, while half open. */
  function ScoreWhile(closed: bool, m: Metrics): real {
    Round3(Raw(m) * (if closed then 1.0 else 0.5))
  }

  lemma ScoreOrder(closed: bool, m: Metrics, closed': bool, n: Metrics)
    requires AsGood(m, n) && (closed ==> closed')
    ensures ScoreWhile(closed, m) <= ScoreWhile(closed', n)
  {
    RateOrder(m, n);
    LatencyOrder(m, n);
    RateBounds(m);
    assert 0.0 <= Raw(m) <= Raw(n);
    RoundOrder(Raw(m) * (if closed then 1.0 else 0.5), Raw(n) * (if closed' then 1.0 else 0.5));
  }

  // --------------------------------------------------------------- what it may reach

  function WithSuccesses(m: Metrics, k: nat): Metrics {
    m.(successes := m.successes + k)
  }

  /**
    The best score the provider can reach without a new attempt: all attempts in flight
    answer at once, which also closes its breaker; without any, time half opens it at best.
  */
  function Best(l: Lane): real {
    ScoreWhile(l.running > 0 || l.p.breaker.state == Closed, WithSuccesses(l.p.metrics, l.running))
  }

  lemma HealthWithinBest(l: Lane, now: real)
    requires Sane(l.p) && Gated(l.p.Observe(now))
    ensures Best(l) >= FLOOR
  {
    var q := l.p.Observe(now);
    assert q.Health() == ScoreWhile(q.breaker.state == Closed, l.p.metrics);
    ScoreOrder(q.breaker.state == Closed, l.p.metrics,
               l.running > 0 || l.p.breaker.state == Closed, WithSuccesses(l.p.metrics, l.running));
  }

  lemma BestNeverRises(l: Lane, m: Move)
    requires Sane(l.p) && !Starts(l, m) && (m.Finish? ==> m.latency >= 0.0)
    ensures Sane(Step(l, m).p) && Best(Step(l, m)) <= Best(l)
  {
    if m.Finish? && l.running > 0 {
      var l' := Step(l, m);
      ScoreOrder(l'.running > 0 || l'.p.breaker.state == Closed, WithSuccesses(l'.p.metrics, l'.running),
                 true, WithSuccesses(l.p.metrics, l.running));
    }
  }

  lemma {:induction false} BelowBestUntried(l: Lane, run: seq<Move>)
    requires Sane(l.p) && Real(run) && Best(l) < FLOOR
    ensures !Tried(l, run)
    decreases |run|
  {
    if run != [] {
      if Starts(l, run[0]) {
        HealthWithinBest(l, run[0].now);
      }
      BestNeverRises(l, run[0]);
      BelowBestUntried(Step(l, run[0]), run[1..]);
    }
  }

  // --------------------------------------------------------------- the way out

  /** Every attempt in flight answers at once. */
  function AllAnswer(k: nat): seq<Move> {
    if k == 0 then [] else [Finish(true, 0.0, 0.0)] + AllAnswer(k - 1)
  }

  /** Then the next call tries it. */
  lemma {:induction false} AnswersLift(l: Lane)
    requires Sane(l.p) && l.running > 0 && Best(l) >= FLOOR
    ensures Real(AllAnswer(l.running) + [Start(0.0)]) && Tried(l, AllAnswer(l.running) + [Start(0.0)])
    decreases l.running
  {
    var l' := Step(l, Finish(true, 0.0, 0.0));
    var rest := AllAnswer(l'.running) + [Start(0.0)];
    assert AllAnswer(l.running) + [Start(0.0)] == [Finish(true, 0.0, 0.0)] + rest;
    assert WithSuccesses(l'.p.metrics, l'.running) == WithSuccesses(l.p.metrics, l.running);
    if l'.running > 0 {
      AnswersLift(l');
    } else {
      assert rest == [Start(0.0)];
      assert l'.p.Observe(0.0) == l'.p && l'.p.Health() == Best(l);
      assert Tried(l', rest);
    }
  }

  lemma TimeLifts(l: Lane)
    requires l.running == 0 && Best(l) >= FLOOR
    ensures Tried(l, [Start(l.p.breaker.lastFailure + l.p.breaker.cooldown)])
  {
    var now := l.p.breaker.lastFailure + l.p.breaker.cooldown;
    assert l.p.Observe(now).Health() == ScoreWhile(l.p.breaker.state == Closed, l.p.metrics);
    assert WithSuccesses(l.p.metrics, 0) == l.p.metrics;
    assert Starts(l, Start(now));
  }

  /**
    The exact condition under overlapping calls: a provider can still be tried again if and
    only if its best reachable score is at the floor. With nothing in flight that score is
    the present one, so a provider below the floor is then out for good.
  */
  lemma TriedAgainIff(l: Lane)
    requires Sane(l.p)
    ensures (exists run: seq<Move> :: Real(run) && Tried(l, run)) <==> Best(l) >= FLOOR
  {
    if Best(l) >= FLOOR {
      if l.running > 0 {
        AnswersLift(l);
        var run := AllAnswer(l.running) + [Start(0.0)];
        assert Real(run) && Tried(l, run);
      } else {
        TimeLifts(l);
        var run := [Start(l.p.breaker.lastFailure + l.p.breaker.cooldown)];
        assert Real(run) && Tried(l, run);
      }
    } else {
      forall run: seq<Move> | Real(run) ensures !Tried(l, run) {
        BelowBestUntried(l, run);
      }
    }
  }

  // --------------------------------------------------------------- how it gets there

  function Fresh(threshold: int, cooldown: real): Lane {
    Lane(Provider(NewBreaker(threshold, cooldown), Metrics(0, 0, 0.0)), 0)
  }

  /** One slow answer and three failures, one call after the other. */
  const DECLINE: seq<Move> := [
    Start(0.0), Finish(true, 0.0, 5000.0), Start(0.0), Finish(false, 0.0, 0.0),
    Start(0.0), Finish(false, 0.0, 0.0), Start(0.0), Finish(false, 0.0, 0.0)
  ]

  function Worn(threshold: int, cooldown: real, failures: nat): Lane {
    Lane(Provider(Breaker(threshold, cooldown, failures, Closed, 0.0), Metrics(1, failures, 5000.0)), 0)
  }

  lemma WornScore(threshold: int, cooldown: real, failures: nat)
    requires failures <= 3
    ensures Worn(threshold, cooldown, failures).p.Health()
            == if failures == 0 then 0.6 else if failures == 1 then 0.3 else if failures == 2 then 0.2 else 0.15
  {
    var m := Metrics(1, failures, 5000.0);
    assert m.AverageLatency() == 5000.0;
    assert Raw(m) == m.SuccessRate() * 0.6;
    assert m.SuccessRate() == 1.0 / (1 + failures) as real;
  }

  lemma WornMore(threshold: int, cooldown: real, failures: nat)
    requires threshold > 3 && failures <= 2
    ensures var l := Worn(threshold, cooldown, failures);
            && Starts(l, Start(0.0))
            && Step(Step(l, Start(0.0)), Finish(false, 0.0, 0.0)) == Worn(threshold, cooldown, failures + 1)
  {
    WornScore(threshold, cooldown, failures);
  }

  lemma FreshAnswers(threshold: int, cooldown: real)
    requires threshold > 3
    ensures Step(Step(Fresh(threshold, cooldown), Start(0.0)), Finish(true, 0.0, 5000.0))
            == Worn(threshold, cooldown, 0)
  {
    GoodRecordPassesFloor(NewBreaker(threshold, cooldown), Metrics(0, 0, 0.0));
  }

  /**
    The state is reached: whenever it takes more than three failures to open the breaker, one
    answer after five seconds and three failures leave a fresh provider available, below the
    floor, and out for good.
  */
  lemma DeclineTraps(threshold: int, cooldown: real)
    requires threshold > 3
    ensures var l := After(Fresh(threshold, cooldown), DECLINE);
            && l == Worn(threshold, cooldown, 3) && l.p.breaker.state == Closed && l.p.Health() < FLOOR
            && forall run: seq<Move> :: Real(run) ==> !Tried(l, run)
  {
    FreshAnswers(threshold, cooldown);
    WornMore(threshold, cooldown, 0);
    WornMore(threshold, cooldown, 1);
    WornMore(threshold, cooldown, 2);
    var l := Fresh(threshold, cooldown);
    assert After(l, DECLINE) == After(Worn(threshold, cooldown, 0), DECLINE[1..][1..]);
    assert After(Worn(threshold, cooldown, 0), DECLINE[2..])
           == After(Worn(threshold, cooldown, 1), DECLINE[2..][1..][1..]);
    assert After(Worn(threshold, cooldown, 1), DECLINE[4..])
           == After(Worn(threshold, cooldown, 2), DECLINE[4..][1..][1..]);
    assert After(Worn(threshold, cooldown, 2), DECLINE[6..])
           == After(Worn(threshold, cooldown, 3), DECLINE[6..][1..][1..]);
    assert DECLINE[1..][1..] == DECLINE[2..] && DECLINE[2..][1..][1..] == DECLINE[4..];
    assert DECLINE[4..][1..][1..] == DECLINE[6..] && DECLINE[6..][1..][1..] == [];
    WornScore(threshold, cooldown, 3);
    var worn := Worn(threshold, cooldown, 3);
    assert WithSuccesses(worn.p.metrics, 0) == worn.p.metrics && Best(worn) == worn.p.Health();
    TriedAgainIff(worn);
  }
}
