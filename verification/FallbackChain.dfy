/** Ranked fallback over several providers. */
module FallbackChain {
  import opened Wrappers
  import opened Resilience

  const FLOOR: real := 0.2

  datatype Provider = Provider(breaker: Breaker, metrics: Metrics) {
    function Observe(now: real): Provider {
      this.(breaker := breaker.Observe(now))
    }

    function Health(): real {
      Score(breaker, metrics)
    }
  }

  /** What meets one provider during a call: when it is ranked, gated and done, how its attempts go. */
  datatype Visit = Visit(rankedAt: real, gatedAt: real, script: seq<Outcome>, doneAt: real, latency: real) {
    predicate WellFormed(maxRetries: nat) {
      |script| == maxRetries + 1
    }

    /** How `generate` ends after its retries. */
    function Result(maxRetries: nat): Outcome
      requires WellFormed(maxRetries)
    {
      AttemptsMeaning(script, maxRetries);
      script[Attempts(script, maxRetries) - 1]
    }
  }

  /** Breaker and metrics after `generate`: one record per call, however many attempts it took. */
  function Recorded(p: Provider, v: Visit, maxRetries: nat): Provider
    requires v.WellFormed(maxRetries)
  {
    if v.Result(maxRetries) == Answered then
      Provider(p.breaker.Succeed(), p.metrics.(successes := p.metrics.successes + 1,
          latency := p.metrics.latency + v.latency))
    else
      Provider(p.breaker.Fail(v.doneAt), p.metrics.(failures := p.metrics.failures + 1))
  }

  /** What one call of `generate` changes, field by field; a failure may open the breaker, an answer closes it. */
  ghost predicate Records(p: Provider, q: Provider, answered: bool, doneAt: real, latency: real) {
    && q.breaker.threshold == p.breaker.threshold && q.breaker.cooldown == p.breaker.cooldown
    && if answered then
         && q.breaker.failures == 0 && q.breaker.state == Closed && q.breaker.lastFailure == p.breaker.lastFailure
         && q.metrics.successes == p.metrics.successes + 1 && q.metrics.failures == p.metrics.failures
         && q.metrics.latency == p.metrics.latency + latency
       else
         && q.breaker.failures == p.breaker.failures + 1 && q.breaker.lastFailure == doneAt
         && q.breaker.state == (if p.breaker.failures + 1 >= p.breaker.threshold then Open else p.breaker.state)
         && q.metrics.failures == p.metrics.failures + 1 && q.metrics.successes == p.metrics.successes
         && q.metrics.latency == p.metrics.latency
  }

  // ----------------------------------------------------------------------- ranking

  /** Best score first; equal scores keep the configured order. */
  ghost predicate Ranks(scores: seq<real>, i: nat, j: nat)
    requires i < |scores| && j < |scores|
  {
    scores[i] > scores[j] || (scores[i] == scores[j] && i < j)
  }

  ghost predicate IsRanking(order: seq<nat>, scores: seq<real>) {
    && |order| == |scores|
    && (forall a :: 0 <= a < |order| ==> order[a] < |scores|)
    && (forall a, b :: 0 <= a < b < |order| ==> Ranks(scores, order[a], order[b]))
    && (forall i :: 0 <= i < |scores| ==> i in order)
  }

  /** Where the next index goes: after every entry with a score at least as good. */
  function InsertAt(order: seq<nat>, scores: seq<real>, i: nat): seq<nat>
    requires i < |scores| && forall a :: 0 <= a < |order| ==> order[a] < |scores|
  {
    if order == [] then [i]
    else if scores[order[0]] >= scores[i] then [order[0]] + InsertAt(order[1..], scores, i)
    else [i] + order
  }

  lemma {:induction false} InsertAtMeaning(order: seq<nat>, scores: seq<real>, i: nat)
    requires i < |scores|
    requires forall a :: 0 <= a < |order| ==> order[a] < i
    requires forall a, b :: 0 <= a < b < |order| ==> Ranks(scores, order[a], order[b])
    ensures var r := InsertAt(order, scores, i);
            && |r| == |order| + 1
            && (forall a :: 0 <= a < |r| ==> r[a] <= i)
            && (forall a, b :: 0 <= a < b < |r| ==> Ranks(scores, r[a], r[b]))
            && (forall x: nat :: x in r <==> x in order || x == i)
  {
    if order != [] && scores[order[0]] >= scores[i] {
      InsertAtMeaning(order[1..], scores, i);
      var r := InsertAt(order[1..], scores, i);
      assert forall a :: 0 <= a < |r| ==> r[a] in r;
      assert order == [order[0]] + order[1..];
      forall x: nat | x in order[1..] || x == i
        ensures Ranks(scores, order[0], x)
      {
      }
    } else if order != [] {
      assert forall a :: 0 <= a < |order| ==> scores[order[0]] >= scores[order[a]];
    }
  }

  /** `sorted(..., reverse=True)`: a stable descending sort of the provider indices. */
  function Ranking(scores: seq<real>, n: nat): seq<nat>
    requires n <= |scores|
    ensures forall a :: 0 <= a < |Ranking(scores, n)| ==> Ranking(scores, n)[a] < n
  {
    if n == 0 then []
    else
      var rest := Ranking(scores, n - 1);
      InsertBounds(rest, scores, n - 1);
      InsertAt(rest, scores, n - 1)
  }

  lemma {:induction false} InsertBounds(order: seq<nat>, scores: seq<real>, i: nat)
    requires i < |scores| && forall a :: 0 <= a < |order| ==> order[a] < i
    ensures forall a :: 0 <= a < |InsertAt(order, scores, i)| ==> InsertAt(order, scores, i)[a] <= i
  {
    if order != [] {
      InsertBounds(order[1..], scores, i);
    }
  }

  lemma {:induction false} RankingMeaning(scores: seq<real>, n: nat)
    requires n <= |scores|
    ensures var r := Ranking(scores, n);
            && |r| == n
            && (forall a, b :: 0 <= a < b < |r| ==> Ranks(scores, r[a], r[b]))
            && (forall x: nat :: x in r <==> x < n)
  {
    if n > 0 {
      RankingMeaning(scores, n - 1);
      InsertAtMeaning(Ranking(scores, n - 1), scores, n - 1);
    }
  }

  lemma RankingDistinct(scores: seq<real>, n: nat)
    requires n <= |scores|
    ensures DistinctOrder(Ranking(scores, n), n)
  {
    RankingMeaning(scores, n);
  }

  // ---------------------------------------------------------------------- the loop

  /** One visit for each of `n` providers, with an outcome for each attempt the retries allow. */
  predicate WellFormed(n: nat, vs: seq<Visit>, maxRetries: nat) {
    |vs| == n && forall i :: 0 <= i < |vs| ==> vs[i].WellFormed(maxRetries)
  }

  /** The providers as the ranking pass leaves them: each state looked at once. */
  function Observed(ps: seq<Provider>, vs: seq<Visit>): seq<Provider>
    requires |vs| == |ps|
  {
    seq(|ps|, i requires 0 <= i < |ps| => ps[i].Observe(vs[i].rankedAt))
  }

  function Scores(ps: seq<Provider>): seq<real> {
    seq(|ps|, i requires 0 <= i < |ps| => ps[i].Health())
  }

  /** Both gates: the circuit, then the quality floor. */
  predicate Gated(p: Provider) {
    p.breaker.state != Open && p.Health() >= FLOOR
  }

  datatype Call = Call(providers: seq<Provider>, tried: seq<nat>, winner: Option<nat>)

  /** The loop from position `k` of the ranking on. */
  function Try(ps: seq<Provider>, order: seq<nat>, vs: seq<Visit>, maxRetries: nat, k: nat): Call
    requires WellFormed(|ps|, vs, maxRetries) && k <= |order|
    requires forall a :: 0 <= a < |order| ==> order[a] < |ps|
    decreases |order| - k
  {
    if k == |order| then Call(ps, [], None)
    else
      var i := order[k];
      var p := ps[i].Observe(vs[i].gatedAt);
      if !Gated(p) then Try(ps[i := p], order, vs, maxRetries, k + 1)
      else
        var after := ps[i := Recorded(p, vs[i], maxRetries)];
        if vs[i].Result(maxRetries) == Answered then Call(after, [i], Some(i))
        else
          var rest := Try(after, order, vs, maxRetries, k + 1);
          rest.(tried := [i] + rest.tried)
  }

  /** One `generate` of the fallback provider. */
  function OneCall(ps: seq<Provider>, vs: seq<Visit>, maxRetries: nat): Call
    requires WellFormed(|ps|, vs, maxRetries)
  {
    var seen := Observed(ps, vs);
    Try(seen, Ranking(Scores(seen), |ps|), vs, maxRetries, 0)
  }

  // ------------------------------------------------- what one call comes down to

  /** Whether provider i, left alone until its turn, passes the gates. */
  predicate Eligible(ps: seq<Provider>, vs: seq<Visit>, i: nat)
    requires |vs| == |ps| && i < |ps|
  {
    Gated(ps[i].Observe(vs[i].rankedAt).Observe(vs[i].gatedAt))
  }

  predicate Succeeds(vs: seq<Visit>, maxRetries: nat, i: nat)
    requires i < |vs| && vs[i].WellFormed(maxRetries)
  {
    vs[i].Result(maxRetries) == Answered
  }

  ghost predicate DistinctOrder(order: seq<nat>, n: nat) {
    && (forall a :: 0 <= a < |order| ==> order[a] < n)
    && (forall a, b :: 0 <= a < b < |order| ==> order[a] != order[b])
  }

  predicate Passes(ps: seq<Provider>, vs: seq<Visit>, i: nat)
    requires |vs| == |ps| && i < |ps|
  {
    Gated(ps[i].Observe(vs[i].gatedAt))
  }

  /** The loop stops at position `stop`: there the provider answers, before it none does. */
  ghost predicate StopsAt(ps: seq<Provider>, order: seq<nat>, vs: seq<Visit>, maxRetries: nat, k: nat, stop: nat)
    requires WellFormed(|ps|, vs, maxRetries) && DistinctOrder(order, |ps|)
  {
    && k <= stop <= |order|
    && (stop < |order| ==> Passes(ps, vs, order[stop]) && Succeeds(vs, maxRetries, order[stop]))
    && (forall b :: k <= b < stop ==> !(Passes(ps, vs, order[b]) && Succeeds(vs, maxRetries, order[b])))
  }

  /** What was tried: the providers passing the gates, in ranking order, up to the stop. */
  ghost predicate TriedUpTo(c: Call, ps: seq<Provider>, order: seq<nat>, vs: seq<Visit>, k: nat, stop: nat)
    requires |vs| == |ps| && DistinctOrder(order, |ps|)
  {
    && (forall b :: k <= b < |order| ==> (order[b] in c.tried <==> Passes(ps, vs, order[b]) && b <= stop))
    && (forall i :: i in c.tried ==> Ahead(order, k, i))
    && (forall a, b :: 0 <= a < b < |c.tried| ==> c.tried[a] != c.tried[b])
  }

  /** What the call leaves: tried providers recorded, the others at most looked at. */
  ghost predicate LeftBehind(c: Call, ps: seq<Provider>, order: seq<nat>, vs: seq<Visit>, maxRetries: nat, k: nat)
    requires WellFormed(|ps|, vs, maxRetries)
  {
    && |c.providers| == |ps|
    && (forall i :: 0 <= i < |ps| ==>
          if i in c.tried then c.providers[i] == Recorded(ps[i].Observe(vs[i].gatedAt), vs[i], maxRetries)
          else c.providers[i] == ps[i] || (Ahead(order, k, i) && c.providers[i] == ps[i].Observe(vs[i].gatedAt)))
  }

  ghost predicate Ahead(order: seq<nat>, k: nat, i: nat) {
    exists b :: k <= b < |order| && order[b] == i
  }

  ghost predicate Meaning(c: Call, ps: seq<Provider>, order: seq<nat>, vs: seq<Visit>, maxRetries: nat, k: nat,
          stop: nat)
    requires WellFormed(|ps|, vs, maxRetries) && DistinctOrder(order, |ps|)
  {
    && StopsAt(ps, order, vs, maxRetries, k, stop)
    && c.winner == (if stop < |order| then Some(order[stop]) else None)
    && TriedUpTo(c, ps, order, vs, k, stop)
    && LeftBehind(c, ps, order, vs, maxRetries, k)
  }

  lemma {:induction false} TryMeaning(ps: seq<Provider>, order: seq<nat>, vs: seq<Visit>, maxRetries: nat, k: nat)
    returns (stop: nat)
    requires WellFormed(|ps|, vs, maxRetries) && k <= |order| && DistinctOrder(order, |ps|)
    ensures Meaning(Try(ps, order, vs, maxRetries, k), ps, order, vs, maxRetries, k, stop)
    decreases |order| - k
  {
    if k == |order| {
      stop := k;
    } else {
      var i := order[k];
      var p := ps[i].Observe(vs[i].gatedAt);
      if !Gated(p) {
        stop := TryMeaning(ps[i := p], order, vs, maxRetries, k + 1);
        SkippedTurn(Try(ps[i := p], order, vs, maxRetries, k + 1), ps, order, vs, maxRetries, k, stop);
      } else if vs[i].Result(maxRetries) == Answered {
        stop := k;
      } else {
        var after := ps[i := Recorded(p, vs[i], maxRetries)];
        stop := TryMeaning(after, order, vs, maxRetries, k + 1);
        FailedTurn(Try(after, order, vs, maxRetries, k + 1), ps, order, vs, maxRetries, k, stop);
      }
    }
  }

  lemma SkippedTurn(c: Call, ps: seq<Provider>, order: seq<nat>, vs: seq<Visit>, maxRetries: nat, k: nat, stop: nat)
    requires WellFormed(|ps|, vs, maxRetries) && DistinctOrder(order, |ps|) && k < |order|
    requires !Passes(ps, vs, order[k])
    requires Meaning(c, ps[order[k] := ps[order[k]].Observe(vs[order[k]].gatedAt)], order, vs, maxRetries, k + 1, stop)
    ensures Meaning(c, ps, order, vs, maxRetries, k, stop)
  {
    var i := order[k];
    OthersUnmoved(ps, ps[i := ps[i].Observe(vs[i].gatedAt)], i, order, vs, maxRetries, k, stop);
    assert i !in c.tried;
  }

  lemma FailedTurn(rest: Call, ps: seq<Provider>, order: seq<nat>, vs: seq<Visit>, maxRetries: nat, k: nat, stop: nat)
    requires WellFormed(|ps|, vs, maxRetries) && DistinctOrder(order, |ps|) && k < |order|
    requires Passes(ps, vs, order[k]) && !Succeeds(vs, maxRetries, order[k])
    requires var i := order[k];
             Meaning(rest, ps[i := Recorded(ps[i].Observe(vs[i].gatedAt), vs[i], maxRetries)], order, vs, maxRetries,
                 k + 1, stop)
    ensures Meaning(rest.(tried := [order[k]] + rest.tried), ps, order, vs, maxRetries, k, stop)
  {
    var i := order[k];
    var after := ps[i := Recorded(ps[i].Observe(vs[i].gatedAt), vs[i], maxRetries)];
    OthersUnmoved(ps, after, i, order, vs, maxRetries, k, stop);
    assert i !in rest.tried;
    assert rest.providers[i] == after[i];
    var c := rest.(tried := [i] + rest.tried);
    assert forall x: nat :: x in c.tried <==> x == i || x in rest.tried;
  }

  lemma OthersUnmoved(ps: seq<Provider>, ps': seq<Provider>, i: nat, order: seq<nat>, vs: seq<Visit>,
          maxRetries: nat, k: nat, stop: nat)
    requires WellFormed(|ps|, vs, maxRetries) && DistinctOrder(order, |ps|) && k < |order| && i == order[k]
    requires |ps'| == |ps| && forall j :: 0 <= j < |ps| && j != i ==> ps'[j] == ps[j]
    ensures forall b :: k < b < |order| ==> order[b] != i && (Passes(ps', vs, order[b]) <==> Passes(ps, vs, order[b]))
    ensures !Ahead(order, k + 1, i) && forall j: nat :: Ahead(order, k, j) <==> j == i || Ahead(order, k + 1, j)
  {
  }

  /** The ranking and the stopping point of a call, in terms of the providers it was given. */
  lemma Anatomy(ps: seq<Provider>, vs: seq<Visit>, maxRetries: nat) returns (order: seq<nat>, stop: nat)
    requires WellFormed(|ps|, vs, maxRetries)
    ensures IsRanking(order, Scores(Observed(ps, vs))) && DistinctOrder(order, |ps|)
    ensures stop <= |order|
    ensures forall b :: 0 <= b < stop ==> !(Eligible(ps, vs, order[b]) && Succeeds(vs, maxRetries, order[b]))
    ensures stop < |order| ==> Eligible(ps, vs, order[stop]) && Succeeds(vs, maxRetries, order[stop])
    ensures var c := OneCall(ps, vs, maxRetries);
            && |c.providers| == |ps|
            && c.winner == (if stop < |order| then Some(order[stop]) else None)
            && (forall b :: 0 <= b < |order| ==> (order[b] in c.tried <==> Eligible(ps, vs, order[b]) && b <= stop))
            && (forall i :: i in c.tried ==> Ahead(order, 0, i))
            && (forall a, b :: 0 <= a < b < |c.tried| ==> c.tried[a] != c.tried[b])
  {
    var seen := Observed(ps, vs);
    order := Ranking(Scores(seen), |ps|);
    RankingMeaning(Scores(seen), |ps|);
    RankingDistinct(Scores(seen), |ps|);
    stop := TryMeaning(seen, order, vs, maxRetries, 0);
    assert forall i: nat :: i < |ps| ==> (Passes(seen, vs, i) <==> Eligible(ps, vs, i));
  }

  /**
    One call, declaratively. The winner is the best-ranked provider that passes both gates
    and answers; the call raises exactly when there is none.
  */
  lemma FirstSuccess(ps: seq<Provider>, vs: seq<Visit>, maxRetries: nat)
    requires WellFormed(|ps|, vs, maxRetries)
    ensures var winner, scores := OneCall(ps, vs, maxRetries).winner, Scores(Observed(ps, vs));
            if winner.None? then forall i: nat :: i < |ps| && Eligible(ps, vs, i) ==> !Succeeds(vs, maxRetries, i)
            else
              && winner.value < |ps| && Eligible(ps, vs, winner.value) && Succeeds(vs, maxRetries, winner.value)
              && forall i: nat :: i < |ps| && i != winner.value && Eligible(ps, vs, i)
                                   && Succeeds(vs, maxRetries, i) ==>
                   Ranks(scores, winner.value, i)
  {
    var order, stop := Anatomy(ps, vs, maxRetries);
    forall i: nat | i < |ps| && Eligible(ps, vs, i) && Succeeds(vs, maxRetries, i)
      ensures stop < |order| && (i == order[stop] || Ranks(Scores(Observed(ps, vs)), order[stop], i))
    {
      assert i in order;
      var a :| 0 <= a < |order| && order[a] == i;
      assert stop <= a;
    }
  }

  /** The providers tried are exactly the eligible ones ranked no lower than the winner, each once. */
  lemma TriedExactly(ps: seq<Provider>, vs: seq<Visit>, maxRetries: nat, i: nat)
    requires WellFormed(|ps|, vs, maxRetries) && i < |ps|
    ensures var c, scores := OneCall(ps, vs, maxRetries), Scores(Observed(ps, vs));
            && |c.providers| == |ps|
            && (c.winner.Some? ==> c.winner.value < |ps|)
            && (i in c.tried <==>
                  Eligible(ps, vs, i) && (c.winner.None? || c.winner.value == i || Ranks(scores, i, c.winner.value)))
            && (forall a, b :: 0 <= a < b < |c.tried| ==> c.tried[a] != c.tried[b])
            && (forall a :: 0 <= a < |c.tried| ==> c.tried[a] < |ps|)
  {
    var order, stop := Anatomy(ps, vs, maxRetries);
    assert i in order;
    var a :| 0 <= a < |order| && order[a] == i;
    var tried := OneCall(ps, vs, maxRetries).tried;
    forall b | 0 <= b < |tried|
      ensures tried[b] < |ps|
    {
      assert tried[b] in tried;
      assert Ahead(order, 0, tried[b]);
    }
    if stop < |order| && a != stop {
      assert if a < stop then Ranks(Scores(Observed(ps, vs)), order[a], order[stop])
          else Ranks(Scores(Observed(ps, vs)), order[stop], order[a]);
    }
  }

  /** A provider that is not tried keeps its metrics, and changes its breaker only by being looked at. */
  lemma UntriedUnchanged(ps: seq<Provider>, vs: seq<Visit>, maxRetries: nat, i: nat)
    requires WellFormed(|ps|, vs, maxRetries) && i < |ps| && i !in OneCall(ps, vs, maxRetries).tried
    ensures var c := OneCall(ps, vs, maxRetries);
            && |c.providers| == |ps|
            && (c.providers[i] == ps[i].Observe(vs[i].rankedAt)
                || c.providers[i] == ps[i].Observe(vs[i].rankedAt).Observe(vs[i].gatedAt))
  {
    var seen := Observed(ps, vs);
    RankingDistinct(Scores(seen), |ps|);
    var _ := TryMeaning(seen, Ranking(Scores(seen), |ps|), vs, maxRetries, 0);
  }

  function InnerAttempts(tried: seq<nat>, vs: seq<Visit>, maxRetries: nat): nat
    requires forall a :: 0 <= a < |tried| ==> tried[a] < |vs| && vs[tried[a]].WellFormed(maxRetries)
  {
    if tried == [] then 0
    else
      assert vs[tried[0]].WellFormed(maxRetries);
      Attempts(vs[tried[0]].script, maxRetries) + InnerAttempts(tried[1..], vs, maxRetries)
  }

  lemma {:induction false} AttemptsBounded(tried: seq<nat>, vs: seq<Visit>, maxRetries: nat)
    requires forall a :: 0 <= a < |tried| ==> tried[a] < |vs| && vs[tried[a]].WellFormed(maxRetries)
    ensures |tried| <= InnerAttempts(tried, vs, maxRetries) <= |tried| * (maxRetries + 1)
  {
    if tried != [] {
      AttemptsMeaning(vs[tried[0]].script, maxRetries);
      AttemptsBounded(tried[1..], vs, maxRetries);
      assert |tried| * (maxRetries + 1) == (|tried| - 1) * (maxRetries + 1) + maxRetries + 1;
    }
  }

  lemma {:induction false} DistinctBounded(tried: seq<nat>, n: nat)
    requires forall a :: 0 <= a < |tried| ==> tried[a] < n
    requires forall a, b :: 0 <= a < b < |tried| ==> tried[a] != tried[b]
    ensures |tried| <= n
  {
    if tried != [] {
      assert tried[0] < n;
      if n - 1 in tried {
        var a :| 0 <= a < |tried| && tried[a] == n - 1;
        DistinctBounded(tried[..a] + tried[a + 1..], n - 1);
      } else {
        DistinctBounded(tried, n - 1);
      }
    }
  }

  /** A call makes at most n * (maxRetries + 1) attempts in all. */
  lemma TotalAttempts(ps: seq<Provider>, vs: seq<Visit>, maxRetries: nat)
    requires WellFormed(|ps|, vs, maxRetries)
    ensures var tried := OneCall(ps, vs, maxRetries).tried;
            && (forall a :: 0 <= a < |tried| ==> tried[a] < |vs|)
            && InnerAttempts(tried, vs, maxRetries) <= |ps| * (maxRetries + 1)
  {
    var tried := OneCall(ps, vs, maxRetries).tried;
    if ps == [] {
      assert tried == [];
    } else {
      TriedExactly(ps, vs, maxRetries, 0);
    }
    AttemptsBounded(tried, vs, maxRetries);
    DistinctBounded(tried, |ps|);
    ProductMonotone(|tried|, |ps|, maxRetries + 1);
  }

  lemma ProductMonotone(a: nat, b: nat, c: nat)
    requires a <= b
    ensures a * c <= b * c
  {
  }

  // ------------------------------------------------------------------- many calls

  lemma CallKeepsCount(ps: seq<Provider>, vs: seq<Visit>, maxRetries: nat)
    requires WellFormed(|ps|, vs, maxRetries)
    ensures |OneCall(ps, vs, maxRetries).providers| == |ps|
  {
    var _, _ := Anatomy(ps, vs, maxRetries);
  }

  ghost predicate AllWellFormed(n: nat, vss: seq<seq<Visit>>, maxRetries: nat) {
    forall k :: 0 <= k < |vss| ==> WellFormed(n, vss[k], maxRetries)
  }

  /** The providers after a series of calls. */
  ghost function Calls(ps: seq<Provider>, vss: seq<seq<Visit>>, maxRetries: nat): (after: seq<Provider>)
    requires AllWellFormed(|ps|, vss, maxRetries)
    ensures |after| == |ps|
  {
    if vss == [] then ps
    else
      var before := Calls(ps, vss[..|vss| - 1], maxRetries);
      CallKeepsCount(before, vss[|vss| - 1], maxRetries);
      OneCall(before, vss[|vss| - 1], maxRetries).providers
  }

  /** An available provider below the floor is passed over and left as it is. */
  lemma BelowFloorSkipped(ps: seq<Provider>, vs: seq<Visit>, maxRetries: nat, i: nat)
    requires WellFormed(|ps|, vs, maxRetries)
    requires i < |ps| && ps[i].breaker.state != Open && ps[i].Health() < FLOOR
    ensures i !in OneCall(ps, vs, maxRetries).tried
    ensures |OneCall(ps, vs, maxRetries).providers| == |ps| && OneCall(ps, vs, maxRetries).providers[i] == ps[i]
  {
    TriedExactly(ps, vs, maxRetries, i);
    assert !Eligible(ps, vs, i);
    UntriedUnchanged(ps, vs, maxRetries, i);
  }

  /**
    The floor is a trap. When calls are made one after another, an available provider once
    scored below it is never tried again, because only a try could change what it is scored
    on. (For calls that overlap, see FloorTrap.)
  */
  lemma {:induction false} BelowFloorForever(ps: seq<Provider>, vss: seq<seq<Visit>>, maxRetries: nat, i: nat)
    requires AllWellFormed(|ps|, vss, maxRetries)
    requires i < |ps| && ps[i].breaker.state != Open && ps[i].Health() < FLOOR
    ensures Calls(ps, vss, maxRetries)[i] == ps[i]
    ensures vss != [] ==> i !in OneCall(Calls(ps, vss[..|vss| - 1], maxRetries), vss[|vss| - 1], maxRetries).tried
  {
    if vss != [] {
      BelowFloorForever(ps, vss[..|vss| - 1], maxRetries, i);
      BelowFloorSkipped(Calls(ps, vss[..|vss| - 1], maxRetries), vss[|vss| - 1], maxRetries, i);
    }
  }

  // ------------------------------------------------------------- losing streaks

  ghost predicate TriedIn(ps: seq<Provider>, vs: seq<Visit>, maxRetries: nat, i: nat)
    requires WellFormed(|ps|, vs, maxRetries)
  {
    i in OneCall(ps, vs, maxRetries).tried
  }

  /** What one call does to provider `i`: looks, and one record if it was tried. */
  lemma CallEffect(ps: seq<Provider>, vs: seq<Visit>, maxRetries: nat, i: nat)
    requires WellFormed(|ps|, vs, maxRetries) && i < |ps|
    ensures var after := OneCall(ps, vs, maxRetries).providers;
            && |after| == |ps|
            && (TriedIn(ps, vs, maxRetries, i) ==>
                  Records(ps[i].Observe(vs[i].rankedAt).Observe(vs[i].gatedAt), after[i],
                          Succeeds(vs, maxRetries, i), vs[i].doneAt, vs[i].latency))
            && (!TriedIn(ps, vs, maxRetries, i) ==>
                  || after[i] == ps[i].Observe(vs[i].rankedAt)
                  || after[i] == ps[i].Observe(vs[i].rankedAt).Observe(vs[i].gatedAt))
  {
    var seen := Observed(ps, vs);
    RankingDistinct(Scores(seen), |ps|);
    var _ := TryMeaning(seen, Ranking(Scores(seen), |ps|), vs, maxRetries, 0);
  }

  /** How often in a row provider `i` was tried and failed when the calls end, what it began with included. */
  ghost function Streak(ps: seq<Provider>, vss: seq<seq<Visit>>, maxRetries: nat, i: nat): nat
    requires AllWellFormed(|ps|, vss, maxRetries) && i < |ps|
  {
    if vss == [] then ps[i].breaker.failures
    else
      var head, vs := vss[..|vss| - 1], vss[|vss| - 1];
      if !TriedIn(Calls(ps, head, maxRetries), vs, maxRetries, i) then Streak(ps, head, maxRetries, i)
      else if Succeeds(vs, maxRetries, i) then 0
      else Streak(ps, head, maxRetries, i) + 1
  }

  lemma {:induction false} StreakIsCounted(ps: seq<Provider>, vss: seq<seq<Visit>>, maxRetries: nat, i: nat)
    requires AllWellFormed(|ps|, vss, maxRetries) && i < |ps|
    ensures Calls(ps, vss, maxRetries)[i].breaker.failures == Streak(ps, vss, maxRetries, i)
    ensures Calls(ps, vss, maxRetries)[i].breaker.threshold == ps[i].breaker.threshold
    ensures Calls(ps, vss, maxRetries)[i].breaker.cooldown == ps[i].breaker.cooldown
  {
    if vss != [] {
      var n := |vss| - 1;
      StreakIsCounted(ps, vss[..n], maxRetries, i);
      CallEffect(Calls(ps, vss[..n], maxRetries), vss[n], maxRetries, i);
    }
  }

  /** A provider looked at before its cooldown has passed stays open, and is not tried. */
  lemma OpenIsUntried(ps: seq<Provider>, vs: seq<Visit>, maxRetries: nat, i: nat)
    requires WellFormed(|ps|, vs, maxRetries) && i < |ps| && ps[i].breaker.state == Open
    requires vs[i].rankedAt < ps[i].breaker.lastFailure + ps[i].breaker.cooldown
    requires vs[i].gatedAt < ps[i].breaker.lastFailure + ps[i].breaker.cooldown
    ensures !TriedIn(ps, vs, maxRetries, i)
    ensures |OneCall(ps, vs, maxRetries).providers| == |ps| && OneCall(ps, vs, maxRetries).providers[i] == ps[i]
  {
    TriedExactly(ps, vs, maxRetries, i);
    CallEffect(ps, vs, maxRetries, i);
  }

  lemma {:induction false} OpenRests(ps: seq<Provider>, vss: seq<seq<Visit>>, maxRetries: nat, i: nat)
    requires AllWellFormed(|ps|, vss, maxRetries) && i < |ps| && ps[i].breaker.state == Open
    requires forall k :: 0 <= k < |vss| ==>
      && vss[k][i].rankedAt < ps[i].breaker.lastFailure + ps[i].breaker.cooldown
      && vss[k][i].gatedAt < ps[i].breaker.lastFailure + ps[i].breaker.cooldown
    ensures Calls(ps, vss, maxRetries)[i] == ps[i]
    ensures vss != [] ==> !TriedIn(Calls(ps, vss[..|vss| - 1], maxRetries), vss[|vss| - 1], maxRetries, i)
  {
    if vss != [] {
      OpenRests(ps, vss[..|vss| - 1], maxRetries, i);
      OpenIsUntried(Calls(ps, vss[..|vss| - 1], maxRetries), vss[|vss| - 1], maxRetries, i);
    }
  }

  /**
    The breaker at work. A provider whose newest try failed, and that failed at least
    `threshold` times in a row, is open from that moment; no call made before its cooldown
    has passed tries it or changes it.
  */
  lemma LosingStreakRests(ps: seq<Provider>, vss: seq<seq<Visit>>, more: seq<seq<Visit>>, maxRetries: nat, i: nat)
    requires AllWellFormed(|ps|, vss, maxRetries) && AllWellFormed(|ps|, more, maxRetries) && i < |ps| && vss != []
    requires TriedIn(Calls(ps, vss[..|vss| - 1], maxRetries), vss[|vss| - 1], maxRetries, i)
    requires !Succeeds(vss[|vss| - 1], maxRetries, i) && Streak(ps, vss, maxRetries, i) >= ps[i].breaker.threshold
    requires forall k :: 0 <= k < |more| ==>
      && more[k][i].rankedAt < vss[|vss| - 1][i].doneAt + ps[i].breaker.cooldown
      && more[k][i].gatedAt < vss[|vss| - 1][i].doneAt + ps[i].breaker.cooldown
    ensures var qs := Calls(ps, vss, maxRetries);
            && qs[i].breaker.state == Open && qs[i].breaker.lastFailure == vss[|vss| - 1][i].doneAt
            && Calls(qs, more, maxRetries)[i] == qs[i]
            && (more != [] ==> !TriedIn(Calls(qs, more[..|more| - 1], maxRetries), more[|more| - 1], maxRetries, i))
  {
    var n := |vss| - 1;
    StreakIsCounted(ps, vss, maxRetries, i);
    CallEffect(Calls(ps, vss[..n], maxRetries), vss[n], maxRetries, i);
    StreakIsCounted(ps, vss[..n], maxRetries, i);
    OpenRests(Calls(ps, vss, maxRetries), more, maxRetries, i);
  }

  /** What every recorded history satisfies: latency is never negative, and there is none without a success. */
  ghost predicate Sane(p: Provider) {
    p.metrics.latency >= 0.0 && (p.metrics.successes == 0 ==> p.metrics.latency == 0.0)
  }

  ghost predicate AllSane(ps: seq<Provider>) {
    forall i :: 0 <= i < |ps| ==> Sane(ps[i])
  }

  lemma CallKeepsSane(ps: seq<Provider>, vs: seq<Visit>, maxRetries: nat)
    requires WellFormed(|ps|, vs, maxRetries) && AllSane(ps)
    requires forall i :: 0 <= i < |vs| ==> vs[i].latency >= 0.0
    ensures AllSane(OneCall(ps, vs, maxRetries).providers)
  {
    var seen := Observed(ps, vs);
    RankingDistinct(Scores(seen), |ps|);
    var _ := TryMeaning(seen, Ranking(Scores(seen), |ps|), vs, maxRetries, 0);
  }

  /**
    After any series of calls every health score lies between 0 and 1, and an available
    provider that succeeded at least twice as often as it failed, or never yet, passes the gates.
  */
  lemma {:induction false} ReachableScores(ps: seq<Provider>, vss: seq<seq<Visit>>, maxRetries: nat, i: nat)
    requires AllWellFormed(|ps|, vss, maxRetries) && AllSane(ps) && i < |ps|
    requires forall k, j :: 0 <= k < |vss| && 0 <= j < |vss[k]| ==> vss[k][j].latency >= 0.0
    ensures AllSane(Calls(ps, vss, maxRetries))
    ensures var p := Calls(ps, vss, maxRetries)[i];
            && 0.0 <= p.Health() <= 1.0
            && (p.breaker.state != Open && GoodRecord(p.metrics) ==> Gated(p))
  {
    if vss != [] {
      var n := |vss| - 1;
      ReachableScores(ps, vss[..n], maxRetries, i);
      CallKeepsSane(Calls(ps, vss[..n], maxRetries), vss[n], maxRetries);
    }
    var p := Calls(ps, vss, maxRetries)[i];
    assert Sane(p);
    ScoreInUnitInterval(p.breaker, p.metrics);
    if p.breaker.state != Open && GoodRecord(p.metrics) {
      GoodRecordPassesFloor(p.breaker, p.metrics);
    }
  }

  // ------------------------------------------------------------- the objects

  class LLMProvider {
    const circuit: ProviderCircuitBreaker
    const metrics: ProviderMetrics

    constructor (threshold: int, cooldown: real)
      ensures fresh(circuit) && fresh(metrics)
      ensures Snap() == Provider(NewBreaker(threshold, cooldown), Metrics(0, 0, 0.0))
    {
      circuit := new ProviderCircuitBreaker(threshold, cooldown);
      metrics := new ProviderMetrics();
    }

    ghost function Snap(): Provider
      reads circuit, metrics
    {
      Provider(circuit.Snapshot(), metrics.Snapshot())
    }

    /** Retry, then one record in the breaker and one in the metrics. */
    method Generate(v: Visit, maxRetries: nat, baseDelay: real) returns (result: Outcome)
      requires v.WellFormed(maxRetries)
      modifies circuit, metrics
      ensures Snap() == Recorded(old(Snap()), v, maxRetries) && result == v.Result(maxRetries)
      ensures Records(old(Snap()), Snap(), result == Answered, v.doneAt, v.latency)
    {
      var attempts, slept;
      result, attempts, slept := RetryWithBackoff(v.script, maxRetries, baseDelay);
      if result == Answered {
        circuit.RecordSuccess();
        metrics.RecordSuccess(v.latency);
      } else {
        circuit.RecordFailure(v.doneAt);
        metrics.RecordFailure();
      }
    }
  }

  class FallbackProvider {
    const providers: seq<LLMProvider>

    constructor (providers: seq<LLMProvider>)
      ensures this.providers == providers
    {
      this.providers := providers;
    }

    /** No two providers share a breaker or metrics object. */
    ghost predicate Valid() {
      forall i, j :: 0 <= i < j < |providers| ==>
        providers[i].circuit != providers[j].circuit && providers[i].metrics != providers[j].metrics
    }

    ghost function Parts(): set<object> {
      (set p | p in providers :: p.circuit as object) + (set p | p in providers :: p.metrics as object)
    }

    ghost function Snaps(): seq<Provider>
      reads Parts()
    {
      seq(|providers|, i requires 0 <= i < |providers| reads Parts() =>
        assert providers[i] in providers; providers[i].Snap())
    }

    /** Scores every provider, in list order; each score looks at the provider's breaker. */
    method ScoreAll(vs: seq<Visit>) returns (scores: seq<real>)
      requires Valid() && |vs| == |providers|
      modifies Parts()
      ensures Snaps() == Observed(old(Snaps()), vs) && scores == Scores(Snaps())
    {
      scores := [];
      ghost var start := Snaps();
      for n := 0 to |providers|
        invariant |scores| == n && |Snaps()| == |start|
        invariant forall i :: 0 <= i < n ==>
                    Snaps()[i] == start[i].Observe(vs[i].rankedAt) && scores[i] == Snaps()[i].Health()
        invariant forall i :: n <= i < |providers| ==> Snaps()[i] == start[i]
      {
        var p := providers[n];
        assert p in providers;
        ghost var before := Snaps();
        var score := p.metrics.CalculateHealthScore(p.circuit, vs[n].rankedAt, vs[n].rankedAt);
        scores := scores + [score];
        assert forall i :: 0 <= i < |providers| && i != n ==> Snaps()[i] == before[i];
      }
    }

    method Generate(vs: seq<Visit>, maxRetries: nat, baseDelay: real)
      returns (winner: Option<nat>, ghost tried: seq<nat>)
      requires Valid() && |vs| == |providers| && (forall i :: 0 <= i < |vs| ==> vs[i].WellFormed(maxRetries))
      modifies Parts()
      ensures Call(Snaps(), tried, winner) == OneCall(old(Snaps()), vs, maxRetries)
    {
      ghost var start := Snaps();
      var scores := ScoreAll(vs);
      var order := Ranking(scores, |providers|);
      RankingDistinct(scores, |providers|);
      ghost var goal := OneCall(start, vs, maxRetries);
      winner, tried := Loop(order, vs, maxRetries, baseDelay, goal);
    }

    method Loop(order: seq<nat>, vs: seq<Visit>, maxRetries: nat, baseDelay: real, ghost goal: Call)
      returns (winner: Option<nat>, ghost tried: seq<nat>)
      requires Valid() && WellFormed(|providers|, vs, maxRetries) && DistinctOrder(order, |providers|)
      requires goal == Try(Snaps(), order, vs, maxRetries, 0)
      modifies Parts()
      ensures Call(Snaps(), tried, winner) == goal
    {
      tried := [];
      ghost var now := Snaps();
      for k := 0 to |order|
        invariant now == Snaps() && |now| == |providers|
        invariant Remaining(goal, tried, now, order, vs, maxRetries, k)
      {
        var i := order[k];
        var result := TakeTurn(i, vs[i], maxRetries, baseDelay);
        RemainingStep(goal, tried, now, order, vs, maxRetries, k);
        now := Snaps();
        if result.Some? {
          tried := tried + [i];
          if result.value == Answered {
            return Some(i), tried;
          }
        }
      }
      winner := None;
    }

    /** One provider's turn: nothing if a gate stops it, else how its `generate` ended. */
    method TakeTurn(i: nat, v: Visit, maxRetries: nat, baseDelay: real) returns (result: Option<Outcome>)
      requires Valid() && i < |providers| && v.WellFormed(maxRetries)
      modifies Parts()
      ensures var p := old(Snaps())[i].Observe(v.gatedAt);
              if Gated(p) then
                result == Some(v.Result(maxRetries)) && Snaps() == old(Snaps())[i := Recorded(p, v, maxRetries)]
              else result == None && Snaps() == old(Snaps())[i := p]
    {
      ghost var before := Snaps();
      var pass := Gate(i, v.gatedAt);
      result := None;
      if pass {
        var r := Ask(i, v, maxRetries, baseDelay);
        result := Some(r);
        assert Snaps() == before[i := Recorded(before[i].Observe(v.gatedAt), v, maxRetries)];
      }
    }

    /** The two gates: circuit available, then score at the floor or above. */
    method Gate(i: nat, now: real) returns (pass: bool)
      requires Valid() && i < |providers|
      modifies Parts()
      ensures Snaps() == old(Snaps())[i := old(Snaps())[i].Observe(now)]
      ensures pass <==> Gated(Snaps()[i])
    {
      var p := providers[i];
      assert p in providers;
      ghost var before := Snaps();
      pass := p.circuit.IsAvailable(now);
      if pass {
        var score := p.metrics.CalculateHealthScore(p.circuit, now, now);
        pass := score >= FLOOR;
      }
      assert forall j :: 0 <= j < |providers| && j != i ==> Snaps()[j] == before[j];
    }

    method Ask(i: nat, v: Visit, maxRetries: nat, baseDelay: real) returns (result: Outcome)
      requires Valid() && i < |providers| && v.WellFormed(maxRetries)
      modifies Parts()
      ensures Snaps() == old(Snaps())[i := Recorded(old(Snaps())[i], v, maxRetries)]
      ensures result == v.Result(maxRetries)
    {
      var p := providers[i];
      assert p in providers;
      ghost var before := Snaps();
      result := p.Generate(v, maxRetries, baseDelay);
      assert forall j :: 0 <= j < |providers| && j != i ==> Snaps()[j] == before[j];
    }
  }

  /** What is still to come, put after what was already tried, is the whole call. */
  ghost predicate Remaining(goal: Call, tried: seq<nat>, ps: seq<Provider>, order: seq<nat>, vs: seq<Visit>,
          maxRetries: nat, k: nat)
    requires WellFormed(|ps|, vs, maxRetries) && k <= |order|
    requires forall a :: 0 <= a < |order| ==> order[a] < |ps|
  {
    var rest := Try(ps, order, vs, maxRetries, k);
    goal == Call(rest.providers, tried + rest.tried, rest.winner)
  }

  lemma RemainingStep(goal: Call, tried: seq<nat>, ps: seq<Provider>, order: seq<nat>, vs: seq<Visit>,
          maxRetries: nat, k: nat)
    requires WellFormed(|ps|, vs, maxRetries) && k < |order|
    requires forall a :: 0 <= a < |order| ==> order[a] < |ps|
    requires Remaining(goal, tried, ps, order, vs, maxRetries, k)
    ensures var i := order[k];
            var p := ps[i].Observe(vs[i].gatedAt);
            if !Gated(p) then Remaining(goal, tried, ps[i := p], order, vs, maxRetries, k + 1)
            else
              var after := ps[i := Recorded(p, vs[i], maxRetries)];
              if vs[i].Result(maxRetries) == Answered then goal == Call(after, tried + [i], Some(i))
              else Remaining(goal, tried + [i], after, order, vs, maxRetries, k + 1)
  {
    var i := order[k];
    var p := ps[i].Observe(vs[i].gatedAt);
    if Gated(p) && vs[i].Result(maxRetries) != Answered {
      var rest := Try(ps[i := Recorded(p, vs[i], maxRetries)], order, vs, maxRetries, k + 1);
      assert tried + ([i] + rest.tried) == (tried + [i]) + rest.tried;
    }
  }
}
