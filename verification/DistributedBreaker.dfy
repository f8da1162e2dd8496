/** The Redis circuit breaker: a fixed failure window, an open flag, a probe gate. */
module DistributedBreaker {
  import opened Wrappers
  import opened RedisModel

  const OPEN_TTL: nat := 60 * SECOND
  const PROBE_TTL: nat := 10 * SECOND

  // ------------------------------------------------------------------- the adapter

  function FailureStore(s: Store, service: string, threshold: int, window: nat): Store {
    var n := s.NumberAt(FailureCount(service)) + 1;
    var counted := s.AddTo(FailureCount(service), 1);
    var timed := if n == 1 then counted.Expire(FailureCount(service), window) else counted;
    if n >= threshold then timed.SetEx(CircuitOpen(service), Flag, OPEN_TTL) else timed
  }

  function SuccessStore(s: Store, service: string): Store {
    s.Delete(FailureCount(service)).Delete(CircuitOpen(service))
  }

  class RedisResilienceAdapter {
    const redis: RedisClient

    constructor (redis: RedisClient)
      ensures this.redis == redis
    {
      this.redis := redis;
    }

    method IsCircuitOpen(service: string) returns (open: bool)
      ensures open == redis.State().Live(CircuitOpen(service))
    {
      open := redis.Exists(CircuitOpen(service));
    }

    method RecordFailure(service: string, threshold: int, window: nat) returns (open: bool)
      modifies redis
      ensures redis.State() == FailureStore(old(redis.State()), service, threshold, window)
      ensures open <==> old(redis.State()).NumberAt(FailureCount(service)) + 1 >= threshold
    {
      var count := redis.IncrBy(FailureCount(service), 1);
      if count == 1 {
        redis.Expire(FailureCount(service), window);
      }
      open := count >= threshold;
      if open {
        redis.Set(CircuitOpen(service), Flag, OPEN_TTL);
      }
    }

    method RecordSuccess(service: string)
      modifies redis
      ensures redis.State() == SuccessStore(old(redis.State()), service)
    {
      redis.Delete(FailureCount(service));
      redis.Delete(CircuitOpen(service));
    }

    method AllowProbe(service: string) returns (allowed: bool)
      modifies redis
      ensures redis.State() == old(redis.State()).SetNx(ProbeGate(service), Flag, PROBE_TTL)
      ensures allowed == !old(redis.State()).Live(ProbeGate(service))
    {
      allowed := redis.SetNx(ProbeGate(service), Flag, PROBE_TTL);
    }
  }

  // ---------------------------------------------------------------------- every run

  /**
    The three commands of a recorded failure and the two of a success are separate steps, so
    anything may fall between them; a crash is a recording that takes no further step.
  */
  datatype Action =
    | Tick(ms: nat)
    | Begin           // INCR: a recording begins
    | Arm(i: nat)     // recording i: EXPIRE, if it counted 1
    | Raise(i: nat)   // recording i: SET of the open flag, if it counted enough
    | Forget          // a success deletes the counter,
    | Clear           // and then the flag
    | Probe

  /** What happened, and when; a failure carries its number, a raised flag the failure that raised it. */
  datatype Event =
    | Counted(at: nat, number: int)
    | Armed(at: nat)
    | Raised(at: nat, cause: nat)
    | Forgot(at: nat)
    | Cleared(at: nat)
    | Probed(at: nat, granted: bool)

  datatype Stage = ToArm | ToRaise | Finished

  /** A recording: its failure's place in the history, and what is left to do. */
  datatype Recording = Recording(event: nat, number: int, stage: Stage)

  datatype World = World(store: Store, recordings: seq<Recording>, clears: nat, events: seq<Event>)

  /** A deployment's parameters. */
  datatype Setup = Setup(service: string, threshold: int, window: nat) {
    function Counter(): Key { FailureCount(service) }
    function Flagged(): Key { CircuitOpen(service) }
    function Gate(): Key { ProbeGate(service) }
  }

  function Log(w: World, e: Event): World {
    w.(events := w.events + [e])
  }

  function CountNext(p: Setup, w: World): World {
    var n := w.store.NumberAt(p.Counter()) + 1;
    Log(w.(store := w.store.AddTo(p.Counter(), 1), recordings := w.recordings + [Recording(|w.events|, n, ToArm)]),
        Counted(w.store.now, n))
  }

  function ArmNext(p: Setup, w: World, i: nat): World
    requires i < |w.recordings|
  {
    var w' := w.(recordings := w.recordings[i := w.recordings[i].(stage := ToRaise)]);
    if w.recordings[i].number == 1
    then Log(w'.(store := w.store.Expire(p.Counter(), p.window)), Armed(w.store.now))
    else w'
  }

  function RaiseNext(p: Setup, w: World, i: nat): World
    requires i < |w.recordings|
  {
    var w' := w.(recordings := w.recordings[i := w.recordings[i].(stage := Finished)]);
    if w.recordings[i].number >= p.threshold
    then Log(w'.(store := w.store.SetEx(p.Flagged(), Flag, OPEN_TTL)), Raised(w.store.now, w.recordings[i].event))
    else w'
  }

  function Next(p: Setup, w: World, a: Action): World {
    match a
    case Tick(ms) => w.(store := w.store.Advance(ms))
    case Begin => CountNext(p, w)
    case Arm(i) => if i < |w.recordings| && w.recordings[i].stage == ToArm then ArmNext(p, w, i) else w
    case Raise(i) => if i < |w.recordings| && w.recordings[i].stage == ToRaise then RaiseNext(p, w, i) else w
    case Forget => Log(w.(store := w.store.Delete(p.Counter()), clears := w.clears + 1), Forgot(w.store.now))
    case Clear =>
      if w.clears == 0 then w
      else Log(w.(store := w.store.Delete(p.Flagged()), clears := w.clears - 1), Cleared(w.store.now))
    case Probe =>
      Log(w.(store := w.store.SetNx(p.Gate(), Flag, PROBE_TTL)), Probed(w.store.now, !w.store.Live(p.Gate())))
  }

  function Init(): World {
    World(Store(0, map[]), [], 0, [])
  }

  function After(p: Setup, run: seq<Action>): World {
    if run == [] then Init() else Next(p, After(p, run[..|run| - 1]), run[|run| - 1])
  }

  lemma AfterOne(p: Setup, run: seq<Action>, a: Action)
    ensures After(p, run + [a]) == Next(p, After(p, run), a)
  {
    assert (run + [a])[..|run|] == run;
  }

  /** With nothing in between, the steps are the adapter's operations. */
  lemma StepsAreOperations(p: Setup, w: World)
    ensures var r := |w.recordings|;
            Next(p, Next(p, Next(p, w, Begin), Arm(r)), Raise(r)).store
            == FailureStore(w.store, p.service, p.threshold, p.window)
    ensures Next(p, Next(p, w, Forget), Clear).store == SuccessStore(w.store, p.service)
  {
  }

  // --------------------------------------------------------------- the open flag

  ghost predicate NoClearFrom(events: seq<Event>, from: nat) {
    forall k :: from <= k < |events| ==> !events[k].Cleared?
  }

  /** The flag raised at event `f` is less than 60 seconds old and no success has cleared it. */
  ghost predicate Opens(events: seq<Event>, f: nat, now: nat) {
    f < |events| && events[f].Raised? && now < events[f].at + 60 * SECOND && NoClearFrom(events, f)
  }

  /** The flag's entry is the last one raised since the last clearing. */
  ghost predicate FlagTracked(p: Setup, w: World) {
    && (p.Flagged() in w.store.data ==> exists f :: RaisedEntry(p, w, f))
    && (forall f :: 0 <= f < |w.events| && w.events[f].Raised? && NoClearFrom(w.events, f) ==> StillFlagged(p, w, f))
  }

  ghost predicate RaisedEntry(p: Setup, w: World, f: nat) {
    && f < |w.events| && w.events[f].Raised? && NoClearFrom(w.events, f)
    && p.Flagged() in w.store.data && w.store.data[p.Flagged()].expires == Some(w.events[f].at + OPEN_TTL)
  }

  ghost predicate StillFlagged(p: Setup, w: World, f: nat)
    requires f < |w.events|
  {
    && w.events[f].at <= w.store.now
    && p.Flagged() in w.store.data && w.store.data[p.Flagged()].expires.Some?
    && w.store.data[p.Flagged()].expires.value >= w.events[f].at + OPEN_TTL
  }

  /** Steps that neither raise nor clear leave the flag's entry, and only add to the history. */
  ghost predicate FlagUntouched(p: Setup, w: World, w': World) {
    && w.store.now <= w'.store.now
    && (p.Flagged() in w'.store.data <==> p.Flagged() in w.store.data)
    && (p.Flagged() in w.store.data ==> w'.store.data[p.Flagged()] == w.store.data[p.Flagged()])
    && (w'.events == w.events
        || (|w'.events| == |w.events| + 1 && w'.events[..|w.events|] == w.events
            && !w'.events[|w.events|].Raised? && !w'.events[|w.events|].Cleared?))
  }

  lemma KeepsFlag(p: Setup, w: World, w': World)
    requires FlagTracked(p, w) && FlagUntouched(p, w, w')
    ensures FlagTracked(p, w')
  {
    assert forall k :: 0 <= k < |w.events| ==> w'.events[k] == w.events[k];
    forall f | 0 <= f < |w'.events| && w'.events[f].Raised? && NoClearFrom(w'.events, f)
      ensures StillFlagged(p, w', f)
    {
      assert NoClearFrom(w.events, f);
    }
    if p.Flagged() in w'.store.data {
      var f :| RaisedEntry(p, w, f);
      assert RaisedEntry(p, w', f);
    }
  }

  lemma FlagRaised(p: Setup, w: World, i: nat)
    requires FlagTracked(p, w) && i < |w.recordings| && w.recordings[i].number >= p.threshold
    ensures FlagTracked(p, RaiseNext(p, w, i))
  {
    var w' := RaiseNext(p, w, i);
    assert forall k :: 0 <= k < |w.events| ==> w'.events[k] == w.events[k];
    assert RaisedEntry(p, w', |w.events|);
    forall f | 0 <= f < |w.events| && w'.events[f].Raised? && NoClearFrom(w'.events, f)
      ensures StillFlagged(p, w', f)
    {
      assert NoClearFrom(w.events, f);
      assert StillFlagged(p, w, f);
    }
  }

  lemma FlagCleared(p: Setup, w: World)
    requires FlagTracked(p, w) && w.clears > 0
    ensures FlagTracked(p, Next(p, w, Clear))
  {
    var w' := Next(p, w, Clear);
    assert w'.events[|w.events|].Cleared?;
  }

  lemma OtherLeavesFlag(p: Setup, w: World, a: Action)
    requires !(a.Raise? && a.i < |w.recordings| && w.recordings[a.i].stage == ToRaise
        && w.recordings[a.i].number >= p.threshold)
    requires !(a.Clear? && w.clears > 0)
    ensures FlagUntouched(p, w, Next(p, w, a))
  {
  }

  lemma FlagTrackedStep(p: Setup, w: World, a: Action)
    requires FlagTracked(p, w)
    ensures FlagTracked(p, Next(p, w, a))
  {
    if a.Raise? && a.i < |w.recordings| && w.recordings[a.i].stage == ToRaise
        && w.recordings[a.i].number >= p.threshold {
      FlagRaised(p, w, a.i);
    } else if a.Clear? && w.clears > 0 {
      FlagCleared(p, w);
    } else {
      OtherLeavesFlag(p, w, a);
      KeepsFlag(p, w, Next(p, w, a));
    }
  }

  lemma {:induction false} FlagTrackedRun(p: Setup, run: seq<Action>)
    ensures FlagTracked(p, After(p, run))
  {
    if run != [] {
      FlagTrackedRun(p, run[..|run| - 1]);
      FlagTrackedStep(p, After(p, run[..|run| - 1]), run[|run| - 1]);
    }
  }

  /** The circuit is open exactly while a flag raised in the last 60 seconds has not been cleared since. */
  lemma OpenIff(p: Setup, run: seq<Action>)
    ensures var w := After(p, run);
            w.store.Live(p.Flagged()) <==> exists f :: Opens(w.events, f, w.store.now)
  {
    FlagTrackedRun(p, run);
    var w := After(p, run);
    if w.store.Live(p.Flagged()) {
      var f :| RaisedEntry(p, w, f);
      assert Opens(w.events, f, w.store.now);
    }
  }

  // -------------------------------------------------------- what the number means

  function Failures(events: seq<Event>, from: nat, upto: nat): nat
    requires from <= upto <= |events|
    decreases upto - from
  {
    if from == upto then 0 else Failures(events, from, upto - 1) + (if events[upto - 1].Counted? then 1 else 0)
  }

  /** When the counter was last given an expiry between two events. */
  function LastArm(events: seq<Event>, from: nat, upto: nat): Option<nat>
    requires from <= upto <= |events|
    decreases upto - from
  {
    if from == upto then None
    else if events[upto - 1].Armed? then Some(events[upto - 1].at)
    else LastArm(events, from, upto - 1)
  }

  lemma {:induction false} HistoryExtends(events: seq<Event>, more: seq<Event>, from: nat, upto: nat)
    requires from <= upto <= |events| && events <= more
    ensures Failures(more, from, upto) == Failures(events, from, upto)
    ensures LastArm(more, from, upto) == LastArm(events, from, upto)
    decreases upto - from
  {
    if from < upto {
      HistoryExtends(events, more, from, upto - 1);
      assert more[upto - 1] == events[upto - 1];
    }
  }

  /**
    From failure `s` up to event `upto` the counter was not forgotten, counted to `n`, and gave
    every failure its number; so `s` is number 1.
  */
  ghost predicate CountFrom(events: seq<Event>, s: nat, upto: nat, n: int) {
    && s < upto <= |events| && events[s].Counted? && Failures(events, s, upto) == n
    && (forall k :: s <= k < upto ==> !events[k].Forgot?)
    && (forall k :: s <= k < upto && events[k].Counted? ==> events[k].number == Failures(events, s, k + 1))
  }

  /** What happens later does not change it. */
  lemma CountKept(events: seq<Event>, more: seq<Event>, s: nat, upto: nat, n: int)
    requires CountFrom(events, s, upto, n) && events <= more
    ensures CountFrom(more, s, upto, n) && LastArm(more, s, upto) == LastArm(events, s, upto)
  {
    HistoryExtends(events, more, s, upto);
    assert forall k :: s <= k < upto ==> more[k] == events[k];
    forall k | s <= k < upto && more[k].Counted?
      ensures more[k].number == Failures(more, s, k + 1)
    {
      HistoryExtends(events, more, s, k + 1);
    }
  }

  /** One more event: the count goes on unless it is a success. */
  lemma CountSnoc(events: seq<Event>, s: nat, upto: nat, n: int)
    requires CountFrom(events, s, upto, n) && upto < |events| && !events[upto].Forgot?
    requires events[upto].Counted? ==> events[upto].number == n + 1
    ensures CountFrom(events, s, upto + 1, if events[upto].Counted? then n + 1 else n)
  {
  }

  /**
    Failure `f` is the `number`-th since failure `s` with no success in between; and if the
    count was given an expiry on the way, `f` comes within a window of the last time it was.
  */
  ghost predicate NumberedSince(events: seq<Event>, s: nat, f: nat, window: nat)
    requires f < |events| && events[f].Counted?
  {
    && s <= f && CountFrom(events, s, f + 1, events[f].number)
    && (LastArm(events, s, f).Some? ==> events[f].at < LastArm(events, s, f).value + window)
  }

  ghost predicate TrulyNumbered(events: seq<Event>, f: nat, window: nat)
    requires f < |events| && events[f].Counted?
  {
    exists s: nat :: NumberedSince(events, s, f, window)
  }

  /** The counter's entry is the count since failure `s`, with the expiry it was last given, if any. */
  ghost predicate CountedSince(p: Setup, w: World, s: nat) {
    && p.Counter() in w.store.data
    && w.store.data[p.Counter()].value == Number(w.store.NumberAt(p.Counter()))
    && CountFrom(w.events, s, |w.events|, w.store.NumberAt(p.Counter()))
    && w.store.data[p.Counter()].expires
       == (match LastArm(w.events, s, |w.events|) case Some(at) => Some(at + p.window) case None => None)
  }

  ghost predicate CounterTracked(p: Setup, w: World) {
    w.store.Live(p.Counter()) ==> exists s: nat :: CountedSince(p, w, s)
  }

  ghost predicate AllNumbered(p: Setup, w: World) {
    forall f :: 0 <= f < |w.events| && w.events[f].Counted? ==> TrulyNumbered(w.events, f, p.window)
  }

  lemma CountGoesOn(p: Setup, w: World, s: nat)
    requires CountedSince(p, w, s) && w.store.Live(p.Counter())
    ensures CountedSince(p, CountNext(p, w), s)
    ensures NumberedSince(CountNext(p, w).events, s, |w.events|, p.window)
  {
    var w' := CountNext(p, w);
    CountKept(w.events, w'.events, s, |w.events|, w.store.NumberAt(p.Counter()));
    CountSnoc(w'.events, s, |w.events|, w.store.NumberAt(p.Counter()));
  }

  lemma CountStarts(p: Setup, w: World)
    requires !w.store.Live(p.Counter())
    ensures CountedSince(p, CountNext(p, w), |w.events|)
    ensures NumberedSince(CountNext(p, w).events, |w.events|, |w.events|, p.window)
  {
    var w' := CountNext(p, w);
    assert Failures(w'.events, |w.events|, |w.events|) == 0;
    assert LastArm(w'.events, |w.events|, |w.events|) == None;
  }

  lemma ArmedSince(p: Setup, w: World, i: nat, s: nat)
    requires i < |w.recordings| && w.recordings[i].number == 1
    requires CountedSince(p, w, s) && w.store.Live(p.Counter()) && ArmNext(p, w, i).store.Live(p.Counter())
    ensures CountedSince(p, ArmNext(p, w, i), s)
  {
    var w' := ArmNext(p, w, i);
    CountKept(w.events, w'.events, s, |w.events|, w.store.NumberAt(p.Counter()));
    CountSnoc(w'.events, s, |w.events|, w.store.NumberAt(p.Counter()));
  }

  /** Steps that neither count, arm nor forget leave the counter, and add nothing that concerns it. */
  ghost predicate CounterUntouched(p: Setup, w: World, w': World) {
    && (w'.store.Live(p.Counter()) ==>
          w.store.Live(p.Counter()) && w'.store.data[p.Counter()] == w.store.data[p.Counter()])
    && (w'.events == w.events
        || (|w'.events| == |w.events| + 1 && w'.events[..|w.events|] == w.events
            && !w'.events[|w.events|].Counted? && !w'.events[|w.events|].Armed? && !w'.events[|w.events|].Forgot?))
  }

  lemma KeepsCounter(p: Setup, w: World, w': World)
    requires CounterTracked(p, w) && CounterUntouched(p, w, w')
    ensures CounterTracked(p, w')
  {
    if w'.store.Live(p.Counter()) {
      var s: nat :| CountedSince(p, w, s);
      CountKept(w.events, w'.events, s, |w.events|, w.store.NumberAt(p.Counter()));
      if w'.events != w.events {
        CountSnoc(w'.events, s, |w.events|, w.store.NumberAt(p.Counter()));
      }
      assert CountedSince(p, w', s);
    }
  }

  predicate TouchesCounter(w: World, a: Action) {
    a.Begin? || a.Forget? || (a.Arm? && a.i < |w.recordings| && w.recordings[a.i].stage == ToArm
        && w.recordings[a.i].number == 1)
  }

  lemma OtherLeavesCounter(p: Setup, w: World, a: Action)
    requires !TouchesCounter(w, a)
    ensures CounterUntouched(p, w, Next(p, w, a))
  {
  }

  lemma CounterTrackedStep(p: Setup, w: World, a: Action)
    requires CounterTracked(p, w)
    ensures CounterTracked(p, Next(p, w, a))
  {
    if !TouchesCounter(w, a) {
      OtherLeavesCounter(p, w, a);
      KeepsCounter(p, w, Next(p, w, a));
    } else if a.Begin? {
      if w.store.Live(p.Counter()) {
        var s: nat :| CountedSince(p, w, s);
        CountGoesOn(p, w, s);
      } else {
        CountStarts(p, w);
      }
    } else if a.Arm? && Next(p, w, a).store.Live(p.Counter()) {
      var s: nat :| CountedSince(p, w, s);
      ArmedSince(p, w, a.i, s);
    }
  }

  lemma NumberingExtends(events: seq<Event>, more: seq<Event>, f: nat, window: nat)
    requires f < |events| && events <= more && events[f].Counted? && TrulyNumbered(events, f, window)
    ensures more[f] == events[f] && TrulyNumbered(more, f, window)
  {
    var s: nat :| NumberedSince(events, s, f, window);
    CountKept(events, more, s, f + 1, events[f].number);
    HistoryExtends(events, more, s, f);
    assert NumberedSince(more, s, f, window);
  }

  lemma NewestNumbered(p: Setup, w: World)
    requires CounterTracked(p, w)
    ensures TrulyNumbered(CountNext(p, w).events, |w.events|, p.window)
  {
    if w.store.Live(p.Counter()) {
      var s: nat :| CountedSince(p, w, s);
      CountGoesOn(p, w, s);
    } else {
      CountStarts(p, w);
    }
  }

  /** History only grows, by one event at most, and only counting adds a failure. */
  lemma EventsGrow(p: Setup, w: World, a: Action)
    ensures w.events <= Next(p, w, a).events && |Next(p, w, a).events| <= |w.events| + 1
    ensures |Next(p, w, a).events| > |w.events| && Next(p, w, a).events[|w.events|].Counted? ==> a.Begin?
  {
  }

  lemma RecordingsKeep(p: Setup, w: World, a: Action)
    ensures var w' := Next(p, w, a);
            && |w.recordings| <= |w'.recordings| <= |w.recordings| + 1
            && (forall i :: 0 <= i < |w.recordings| ==>
                  w'.recordings[i].event == w.recordings[i].event && w'.recordings[i].number == w.recordings[i].number)
            && (|w'.recordings| > |w.recordings| ==>
                  && |w'.events| > |w.events| && w'.recordings[|w.recordings|].event == |w.events|
                  && w'.events[|w.events|] == Counted(w.store.now, w'.recordings[|w.recordings|].number))
            && (|w'.events| > |w.events| && w'.events[|w.events|].Raised? ==>
                  exists i :: 0 <= i < |w.recordings| && w.recordings[i].number >= p.threshold
                    && w'.events[|w.events|].cause == w.recordings[i].event)
            && (|w'.events| > |w.events| ==> w'.events[|w.events|].at == w.store.now == w'.store.now)
            && w.store.now <= w'.store.now
  {
    if a.Raise? && a.i < |w.recordings| {
      assert w.recordings[a.i].number >= p.threshold ==>
          exists i :: 0 <= i < |w.recordings| && w.recordings[i] == w.recordings[a.i];
    }
  }

  lemma NumberedGrows(events: seq<Event>, more: seq<Event>, window: nat)
    requires forall f :: 0 <= f < |events| && events[f].Counted? ==> TrulyNumbered(events, f, window)
    requires events <= more && |more| <= |events| + 1
    requires |more| > |events| && more[|events|].Counted? ==> TrulyNumbered(more, |events|, window)
    ensures forall f :: 0 <= f < |more| && more[f].Counted? ==> TrulyNumbered(more, f, window)
  {
    forall f | 0 <= f < |events| && more[f].Counted?
      ensures TrulyNumbered(more, f, window)
    {
      NumberingExtends(events, more, f, window);
    }
  }

  lemma AllNumberedStep(p: Setup, w: World, a: Action)
    requires CounterTracked(p, w) && AllNumbered(p, w)
    ensures AllNumbered(p, Next(p, w, a))
  {
    EventsGrow(p, w, a);
    if a.Begin? {
      NewestNumbered(p, w);
    }
    NumberedGrows(w.events, Next(p, w, a).events, p.window);
  }

  lemma {:induction false} NumberedRun(p: Setup, run: seq<Action>)
    ensures CounterTracked(p, After(p, run)) && AllNumbered(p, After(p, run))
  {
    if run != [] {
      NumberedRun(p, run[..|run| - 1]);
      CounterTrackedStep(p, After(p, run[..|run| - 1]), run[|run| - 1]);
      AllNumberedStep(p, After(p, run[..|run| - 1]), run[|run| - 1]);
    }
  }

  /**
    A failure numbered n really was the n-th of its count, with no success in between, and
    within a window of the last expiry the count was given before it, if it was given one.
  */
  lemma NumberMeansFailuresInWindow(p: Setup, run: seq<Action>, f: nat)
    requires f < |After(p, run).events| && After(p, run).events[f].Counted?
    ensures TrulyNumbered(After(p, run).events, f, p.window)
  {
    NumberedRun(p, run);
  }

  // ------------------------------------------------------------------ in one window

  /** Events are in time order. */
  ghost predicate InOrder(w: World) {
    && (forall j, k :: 0 <= j <= k < |w.events| ==> w.events[j].at <= w.events[k].at)
    && (forall k :: 0 <= k < |w.events| ==> w.events[k].at <= w.store.now)
  }

  lemma InOrderStep(p: Setup, w: World, a: Action)
    requires InOrder(w)
    ensures InOrder(Next(p, w, a))
  {
    EventsGrow(p, w, a);
    RecordingsKeep(p, w, a);
    assert forall k :: 0 <= k < |w.events| ==> Next(p, w, a).events[k] == w.events[k];
  }

  lemma {:induction false} InOrderRun(p: Setup, run: seq<Action>)
    ensures InOrder(After(p, run))
  {
    if run != [] {
      InOrderRun(p, run[..|run| - 1]);
      InOrderStep(p, After(p, run[..|run| - 1]), run[|run| - 1]);
    }
  }

  /** Failure `s` is the first of the count of failure `f`, and what follows it up to `f` is within a window of it. */
  ghost predicate WindowFrom(events: seq<Event>, s: nat, f: nat, window: nat)
    requires f < |events| && events[f].Counted?
  {
    && s <= f && CountFrom(events, s, f + 1, events[f].number)
    && (forall k :: s < k <= f ==> events[s].at <= events[k].at < events[s].at + window)
  }

  /** All failures that add up to the number of failure `f` lie in one window. */
  ghost predicate InOneWindow(events: seq<Event>, f: nat, window: nat) {
    f < |events| && events[f].Counted? && exists s: nat :: WindowFrom(events, s, f, window)
  }

  predicate First(e: Event) {
    e.Counted? && e.number == 1
  }

  /** Every EXPIRE directly follows the INCR that counted 1, and every such INCR is followed by it. */
  ghost predicate ArmedAtOnce(events: seq<Event>) {
    && (forall s :: 0 <= s < |events| - 1 && First(events[s]) ==> events[s + 1] == Armed(events[s].at))
    && (forall x :: 0 <= x < |events| && events[x].Armed? ==>
          x > 0 && First(events[x - 1]) && events[x - 1].at == events[x].at)
  }

  lemma {:induction false} PositiveCount(events: seq<Event>, s: nat, upto: nat)
    requires s < upto <= |events| && events[s].Counted?
    ensures Failures(events, s, upto) >= 1
    decreases upto
  {
    if s + 1 != upto {
      PositiveCount(events, s, upto - 1);
    }
  }

  lemma {:induction false} MoreFailures(events: seq<Event>, s: nat, s': nat, upto: nat)
    requires s < s' <= upto <= |events| && events[s].Counted?
    ensures Failures(events, s, upto) > Failures(events, s', upto)
    decreases upto
  {
    if s' == upto {
      PositiveCount(events, s, upto);
    } else {
      MoreFailures(events, s, s', upto - 1);
    }
  }

  /** A number has one count behind it. */
  lemma OneStart(events: seq<Event>, s: nat, s': nat, upto: nat, n: int)
    requires CountFrom(events, s, upto, n) && CountFrom(events, s', upto, n)
    ensures s == s'
  {
    if s < s' {
      MoreFailures(events, s, s', upto);
    } else if s' < s {
      MoreFailures(events, s', s, upto);
    }
  }

  lemma StartIsFirst(events: seq<Event>, s: nat, upto: nat, n: int)
    requires CountFrom(events, s, upto, n)
    ensures First(events[s])
  {
    assert Failures(events, s, s) == 0;
  }

  /** Only the first failure of a count has number 1. */
  lemma FirstIsStart(events: seq<Event>, s: nat, upto: nat, n: int, k: nat)
    requires CountFrom(events, s, upto, n) && s <= k < upto && First(events[k])
    ensures k == s
  {
    if s < k {
      PositiveCount(events, s, k);
    }
  }

  /** So a count armed at once was last armed when it began. */
  lemma {:induction false} ArmedAtStart(events: seq<Event>, s: nat, upto: nat)
    requires ArmedAtOnce(events) && s + 1 < upto <= |events| && CountFrom(events, s, upto, Failures(events, s, upto))
    ensures LastArm(events, s, upto) == Some(events[s].at)
    decreases upto
  {
    StartIsFirst(events, s, upto, Failures(events, s, upto));
    assert First(events[s]) && events[s + 1] == Armed(events[s].at);
    if events[upto - 1].Armed? {
      FirstIsStart(events, s, upto, Failures(events, s, upto), upto - 2);
    } else {
      ArmedAtStart(events, s, upto - 1);
    }
  }

  lemma CountPrefix(events: seq<Event>, s: nat, k: nat, upto: nat, n: int)
    requires CountFrom(events, s, upto, n) && s < k <= upto
    ensures CountFrom(events, s, k, Failures(events, s, k))
  {
  }

  lemma WithinWindow(events: seq<Event>, s: nat, f: nat, window: nat)
    requires f < |events| && events[f].Counted? && NumberedSince(events, s, f, window)
    requires ArmedAtOnce(events) && s < f
    ensures events[f].at < events[s].at + window
  {
    StartIsFirst(events, s, f + 1, events[f].number);
    assert events[s + 1] == Armed(events[s].at);
    CountPrefix(events, s, f, f + 1, events[f].number);
    ArmedAtStart(events, s, f);
  }

  /**
    With each EXPIRE directly after its INCR, every failure lies in one window with all the
    failures its number counts.
  */
  lemma FailuresInOneWindow(p: Setup, run: seq<Action>, f: nat)
    requires ArmedAtOnce(After(p, run).events)
    requires f < |After(p, run).events| && After(p, run).events[f].Counted?
    ensures InOneWindow(After(p, run).events, f, p.window)
  {
    NumberMeansFailuresInWindow(p, run, f);
    InOrderRun(p, run);
    var es := After(p, run).events;
    var s: nat :| NumberedSince(es, s, f, p.window);
    if s < f {
      WithinWindow(es, s, f, p.window);
    }
    assert WindowFrom(es, s, f, p.window);
  }

  ghost predicate NotArmed(events: seq<Event>, from: nat, upto: nat) {
    upto <= |events| && forall k :: from <= k < upto ==> !events[k].Armed?
  }

  /** Event `k` armed the counter, for the last time between two events. */
  ghost predicate ArmedLast(events: seq<Event>, from: nat, upto: nat, k: nat) {
    from <= k < upto <= |events| && events[k].Armed? && NotArmed(events, k + 1, upto)
  }

  lemma {:induction false} LastArmMeaning(events: seq<Event>, from: nat, upto: nat)
    requires from <= upto <= |events|
    ensures match LastArm(events, from, upto)
            case None => NotArmed(events, from, upto)
            case Some(at) => exists k: nat :: ArmedLast(events, from, upto, k) && events[k].at == at
    decreases upto
  {
    if from < upto {
      if events[upto - 1].Armed? {
        assert ArmedLast(events, from, upto, upto - 1);
      } else {
        LastArmMeaning(events, from, upto - 1);
        if LastArm(events, from, upto).Some? {
          var k: nat :| ArmedLast(events, from, upto - 1, k) && events[k].at == LastArm(events, from, upto).value;
          assert ArmedLast(events, from, upto, k);
        }
      }
    }
  }

  /** A live counter expires exactly when its count was armed, and then a window after the last time. */
  lemma LiveCounterExpiresIff(p: Setup, run: seq<Action>) returns (s: nat)
    requires After(p, run).store.Live(p.Counter())
    ensures var w := After(p, run);
            && CountFrom(w.events, s, |w.events|, w.store.NumberAt(p.Counter()))
            && match w.store.data[p.Counter()].expires
               case None => NotArmed(w.events, s, |w.events|)
               case Some(t) =>
                 exists k: nat :: ArmedLast(w.events, s, |w.events|, k) && t == w.events[k].at + p.window
  {
    NumberedRun(p, run);
    var w := After(p, run);
    s :| CountedSince(p, w, s);
    LastArmMeaning(w.events, s, |w.events|);
  }

  /** Whenever the next failure comes, it lies in one window with the failures it adds to. */
  ghost predicate NextInWindow(p: Setup, run: seq<Action>) {
    forall ms: nat :: InOneWindow(After(p, run + [Tick(ms)] + [Begin]).events, |After(p, run).events|, p.window)
  }

  /** A live counter expires one window after the first failure of its count. */
  ghost predicate ExpiresFromFirst(p: Setup, w: World) {
    w.store.Live(p.Counter()) ==> exists s: nat :: TimedFrom(p, w, s)
  }

  ghost predicate TimedFrom(p: Setup, w: World, s: nat) {
    && CountFrom(w.events, s, |w.events|, w.store.NumberAt(p.Counter()))
    && p.Counter() in w.store.data && w.store.data[p.Counter()].expires == Some(w.events[s].at + p.window)
  }

  /** The next failure `ms` later. */
  function Later(p: Setup, w: World, ms: nat): World {
    CountNext(p, w.(store := w.store.Advance(ms)))
  }

  lemma LaterRun(p: Setup, run: seq<Action>, ms: nat)
    ensures After(p, run + [Tick(ms)] + [Begin]) == Later(p, After(p, run), ms)
  {
    AfterOne(p, run, Tick(ms));
    AfterOne(p, run + [Tick(ms)], Begin);
  }

  /** A counter still live then counts on from the same first failure. */
  lemma LaterCounts(p: Setup, w: World, s: nat, ms: nat)
    requires CountFrom(w.events, s, |w.events|, w.store.NumberAt(p.Counter()))
    requires w.store.Advance(ms).Live(p.Counter())
    ensures var es := Later(p, w, ms).events;
            && w.events <= es && |es| == |w.events| + 1
            && es[|w.events|] == Counted(w.store.now + ms, w.store.NumberAt(p.Counter()) + 1)
            && CountFrom(es, s, |es|, es[|w.events|].number)
  {
    var n := w.store.NumberAt(p.Counter());
    CountKept(w.events, Later(p, w, ms).events, s, |w.events|, n);
    CountSnoc(Later(p, w, ms).events, s, |w.events|, n);
  }

  lemma NextIsInWindow(p: Setup, run: seq<Action>, ms: nat)
    requires ExpiresFromFirst(p, After(p, run))
    ensures InOneWindow(Later(p, After(p, run), ms).events, |After(p, run).events|, p.window)
  {
    var w := After(p, run);
    InOrderRun(p, run);
    if w.store.Advance(ms).Live(p.Counter()) {
      var s: nat :| TimedFrom(p, w, s);
      LaterCounts(p, w, s, ms);
      assert WindowFrom(Later(p, w, ms).events, s, |w.events|, p.window);
    } else {
      CountStarts(p, w.(store := w.store.Advance(ms)));
      assert WindowFrom(Later(p, w, ms).events, |w.events|, |w.events|, p.window);
    }
  }

  /** The last moment before a counter expires, or a window from now if it never does. */
  lemma NextIsLate(p: Setup, run: seq<Action>) returns (ms: nat)
    requires !ExpiresFromFirst(p, After(p, run))
    ensures !InOneWindow(Later(p, After(p, run), ms).events, |After(p, run).events|, p.window)
  {
    var w := After(p, run);
    var s := LiveCounterExpiresIff(p, run);
    InOrderRun(p, run);
    var expires := w.store.data[p.Counter()].expires;
    ms := if expires.None? then p.window else expires.value - 1 - w.store.now;
    LaterCounts(p, w, s, ms);
    var es := Later(p, w, ms).events;
    if InOneWindow(es, |w.events|, p.window) {
      var s': nat :| WindowFrom(es, s', |w.events|, p.window);
      OneStart(es, s, s', |es|, es[|w.events|].number);
      assert es[|w.events|].at < es[s].at + p.window;
      assert TimedFrom(p, w, s);
    }
  }

  /** The exact condition: the next failure is certain to be in one window exactly then. */
  lemma NextInWindowIff(p: Setup, run: seq<Action>)
    ensures NextInWindow(p, run) <==> ExpiresFromFirst(p, After(p, run))
  {
    if ExpiresFromFirst(p, After(p, run)) {
      forall ms: nat
        ensures InOneWindow(After(p, run + [Tick(ms)] + [Begin]).events, |After(p, run).events|, p.window)
      {
        LaterRun(p, run, ms);
        NextIsInWindow(p, run, ms);
      }
    } else {
      var ms := NextIsLate(p, run);
      LaterRun(p, run, ms);
    }
  }

  // ------------------------------------------------------------ why it was opened

  /** Event `f` was raised by an earlier failure that had counted to the threshold. */
  ghost predicate CausedBy(p: Setup, events: seq<Event>, f: nat)
    requires f < |events| && events[f].Raised?
  {
    var c := events[f].cause;
    c < f && events[c].Counted? && events[c].number >= p.threshold && events[c].at <= events[f].at
  }

  ghost predicate Caused(p: Setup, w: World) {
    && (forall f :: 0 <= f < |w.events| ==> w.events[f].at <= w.store.now)
    && (forall i :: 0 <= i < |w.recordings| ==>
          var r := w.recordings[i];
          r.event < |w.events| && w.events[r.event].Counted? && w.events[r.event].number == r.number)
    && (forall f :: 0 <= f < |w.events| && w.events[f].Raised? ==> CausedBy(p, w.events, f))
  }

  lemma CausedStep(p: Setup, w: World, a: Action)
    requires Caused(p, w)
    ensures Caused(p, Next(p, w, a))
  {
    EventsGrow(p, w, a);
    var w' := Next(p, w, a);
    assert forall k :: 0 <= k < |w.events| ==> w'.events[k] == w.events[k];
    RecordingsKeep(p, w, a);
  }

  lemma {:induction false} CausedRun(p: Setup, run: seq<Action>)
    ensures Caused(p, After(p, run))
  {
    if run != [] {
      CausedRun(p, run[..|run| - 1]);
      CausedStep(p, After(p, run[..|run| - 1]), run[|run| - 1]);
    }
  }

  /**
    Timed safety. An open circuit was opened less than 60 seconds ago, and not cleared since,
    by a recording whose failure was at least the threshold-th of its count.
  */
  lemma OpenForCause(p: Setup, run: seq<Action>) returns (f: nat)
    requires After(p, run).store.Live(p.Flagged())
    ensures var es := After(p, run).events;
            && Opens(es, f, After(p, run).store.now) && CausedBy(p, es, f)
            && TrulyNumbered(es, es[f].cause, p.window)
  {
    OpenIff(p, run);
    CausedRun(p, run);
    NumberedRun(p, run);
    f :| Opens(After(p, run).events, f, After(p, run).store.now);
  }

  /** Failure `c` reached the threshold less than 60 seconds ago, and no success has cleared the flag since. */
  ghost predicate Backs(p: Setup, w: World, c: nat) {
    && c < |w.events| && w.events[c].Counted? && w.events[c].number >= p.threshold
    && w.store.now < w.events[c].at + 60 * SECOND && NoClearFrom(w.events, c)
  }

  ghost predicate Justified(p: Setup, w: World) {
    w.store.Live(p.Flagged()) ==> exists c: nat :: Backs(p, w, c)
  }

  /** At every point of the run, and however long after it. */
  ghost predicate AlwaysJustified(p: Setup, run: seq<Action>) {
    forall n, ms: nat :: 0 <= n <= |run| ==> Justified(p, After(p, run[..n] + [Tick(ms)]))
  }

  /** Failure `c` reached the threshold when flag `f` was raised, and no success cleared the flag in between. */
  ghost predicate Prompts(p: Setup, events: seq<Event>, c: nat, f: nat)
    requires f < |events|
  {
    && c < f && events[c].Counted? && events[c].number >= p.threshold && events[c].at == events[f].at
    && (forall k :: c <= k < f ==> !events[k].Cleared?)
  }

  ghost predicate Prompt(p: Setup, events: seq<Event>) {
    forall f :: 0 <= f < |events| && events[f].Raised? ==> exists c: nat :: Prompts(p, events, c, f)
  }

  lemma {:induction false} HistoryGrows(p: Setup, run: seq<Action>, n: nat)
    requires n <= |run|
    ensures After(p, run[..n]).events <= After(p, run).events
  {
    if n == |run| {
      assert run[..n] == run;
    } else {
      var head := run[..|run| - 1];
      HistoryGrows(p, head, n);
      assert head[..n] == run[..n];
      EventsGrow(p, After(p, head), run[|run| - 1]);
    }
  }

  /** The point of a run at which event `f` has just happened. */
  lemma {:induction false} JustAfter(p: Setup, run: seq<Action>, f: nat) returns (n: nat)
    requires f < |After(p, run).events|
    ensures n <= |run|
    ensures var w := After(p, run[..n]);
            w.events == After(p, run).events[..f + 1] && w.store.now == After(p, run).events[f].at
  {
    var head := run[..|run| - 1];
    EventsGrow(p, After(p, head), run[|run| - 1]);
    RecordingsKeep(p, After(p, head), run[|run| - 1]);
    if f < |After(p, head).events| {
      n := JustAfter(p, head, f);
      assert head[..n] == run[..n];
    } else {
      n := |run|;
      assert run[..n] == run;
    }
  }

  lemma TickOnly(p: Setup, run: seq<Action>, ms: nat)
    ensures var w := After(p, run); After(p, run + [Tick(ms)]) == w.(store := w.store.Advance(ms))
  {
    AfterOne(p, run, Tick(ms));
  }

  /** A prompt flag is backed wherever in the run, and however late, it is found live. */
  lemma PromptBacks(p: Setup, run: seq<Action>, n: nat, ms: nat)
    requires n <= |run| && Prompt(p, After(p, run).events)
    ensures Justified(p, After(p, run[..n] + [Tick(ms)]))
  {
    HistoryGrows(p, run, n);
    TickOnly(p, run[..n], ms);
    OpenIff(p, run[..n] + [Tick(ms)]);
    var w := After(p, run[..n] + [Tick(ms)]);
    if w.store.Live(p.Flagged()) {
      var f :| Opens(w.events, f, w.store.now);
      var c: nat :| Prompts(p, After(p, run).events, c, f);
      assert Backs(p, w, c);
    }
  }

  /** The last moment at which a flag just raised is live. */
  lemma LastMoment(p: Setup, run: seq<Action>, f: nat)
    requires var w := After(p, run);
             |w.events| == f + 1 && w.events[f].Raised? && w.store.now == w.events[f].at + OPEN_TTL - 1
    ensures After(p, run).store.Live(p.Flagged())
  {
    OpenIff(p, run);
    assert Opens(After(p, run).events, f, After(p, run).store.now);
  }

  lemma BackPrompts(p: Setup, last: World, w: World, c: nat, f: nat)
    requires InOrder(w) && f < |w.events| && w.events[f].Raised? && last.events == w.events[..f + 1]
    requires last.store.now == w.events[f].at + OPEN_TTL - 1 && Backs(p, last, c)
    ensures Prompts(p, w.events, c, f)
  {
    assert forall k :: 0 <= k <= f ==> w.events[k] == last.events[k];
  }

  /** A flag that is backed for as long as it lives was raised promptly. */
  lemma BackedIsPrompt(p: Setup, run: seq<Action>, f: nat)
    requires AlwaysJustified(p, run) && f < |After(p, run).events| && After(p, run).events[f].Raised?
    ensures exists c: nat :: Prompts(p, After(p, run).events, c, f)
  {
    var n := JustAfter(p, run, f);
    var last := run[..n] + [Tick(OPEN_TTL - 1)];
    TickOnly(p, run[..n], OPEN_TTL - 1);
    LastMoment(p, last, f);
    assert Justified(p, After(p, last));
    var c: nat :| Backs(p, After(p, last), c);
    InOrderRun(p, run);
    BackPrompts(p, After(p, last), After(p, run), c, f);
  }

  /**
    The exact condition. An open circuit is always backed by a threshold-reaching failure of
    the last 60 seconds with no success since if and only if each flag is raised at the time of
    such a failure with no success between the two.
  */
  lemma JustifiedIff(p: Setup, run: seq<Action>)
    ensures AlwaysJustified(p, run) <==> Prompt(p, After(p, run).events)
  {
    if Prompt(p, After(p, run).events) {
      forall n, ms: nat | 0 <= n <= |run|
        ensures Justified(p, After(p, run[..n] + [Tick(ms)]))
      {
        PromptBacks(p, run, n, ms);
      }
    }
    if AlwaysJustified(p, run) {
      forall f | 0 <= f < |After(p, run).events| && After(p, run).events[f].Raised?
        ensures exists c: nat :: Prompts(p, After(p, run).events, c, f)
      {
        BackedIsPrompt(p, run, f);
      }
    }
  }

  /**
    Then an open circuit has behind it a failure of the last 60 seconds, with no success since,
    that was at least the threshold-th of its count; and if counts are armed at once, all of
    those failures lie in one window.
  */
  lemma PromptlyOpenForCause(p: Setup, run: seq<Action>) returns (c: nat)
    requires After(p, run).store.Live(p.Flagged()) && Prompt(p, After(p, run).events)
    ensures var w := After(p, run);
            && Backs(p, w, c) && TrulyNumbered(w.events, c, p.window)
            && (ArmedAtOnce(w.events) ==> InOneWindow(w.events, c, p.window))
  {
    JustifiedIff(p, run);
    TickOnly(p, run, 0);
    assert run[..|run|] == run;
    assert Justified(p, After(p, run[..|run|] + [Tick(0)]));
    c :| Backs(p, After(p, run), c);
    NumberedRun(p, run);
    if ArmedAtOnce(After(p, run).events) {
      FailuresInOneWindow(p, run, c);
    }
  }

  // --------------------------------------------------------------- uninterrupted

  /** The adapter's calls, each run to its end before the next. */
  datatype Call = Wait(ms: nat) | Failure | Success | AskProbe

  /** How many recordings the calls began. */
  function Begun(calls: seq<Call>): nat {
    if calls == [] then 0 else Begun(calls[..|calls| - 1]) + (if calls[|calls| - 1] == Failure then 1 else 0)
  }

  function Uninterrupted(calls: seq<Call>): seq<Action> {
    if calls == [] then []
    else
      var head := calls[..|calls| - 1];
      match calls[|calls| - 1]
      case Wait(ms) => Uninterrupted(head) + [Tick(ms)]
      case Failure => Uninterrupted(head) + [Begin] + [Arm(Begun(head))] + [Raise(Begun(head))]
      case Success => Uninterrupted(head) + [Forget] + [Clear]
      case AskProbe => Uninterrupted(head) + [Probe]
  }

  /** The events of an uninterrupted recording whose failure is number `n`. */
  function Recorded(p: Setup, events: seq<Event>, now: nat, n: int): seq<Event> {
    events + [Counted(now, n)] + (if n == 1 then [Armed(now)] else [])
    + (if n >= p.threshold then [Raised(now, |events|)] else [])
  }

  /** Both conditions hold, and no count is waiting for its EXPIRE. */
  ghost predicate Tidy(p: Setup, events: seq<Event>) {
    ArmedAtOnce(events) && Prompt(p, events) && (events != [] ==> !First(events[|events| - 1]))
  }

  lemma FailureRecorded(p: Setup, w: World)
    ensures var r := |w.recordings|;
            var w' := Next(p, Next(p, Next(p, w, Begin), Arm(r)), Raise(r));
            && w'.events == Recorded(p, w.events, w.store.now, w.store.NumberAt(p.Counter()) + 1)
            && |w'.recordings| == r + 1
  {
  }

  lemma TidyPrompt(p: Setup, events: seq<Event>, more: seq<Event>)
    requires Prompt(p, events) && events <= more
    requires forall f :: |events| <= f < |more| && more[f].Raised? ==> exists c: nat :: Prompts(p, more, c, f)
    ensures Prompt(p, more)
  {
    forall f | 0 <= f < |events| && more[f].Raised?
      ensures exists c: nat :: Prompts(p, more, c, f)
    {
      var c: nat :| Prompts(p, events, c, f);
      assert Prompts(p, more, c, f);
    }
  }

  lemma TidyRecorded(p: Setup, events: seq<Event>, now: nat, n: int)
    requires Tidy(p, events)
    ensures Tidy(p, Recorded(p, events, now, n))
  {
    var more := Recorded(p, events, now, n);
    assert forall k :: 0 <= k < |events| ==> more[k] == events[k];
    assert more[|events|] == Counted(now, n);
    if n >= p.threshold {
      assert Prompts(p, more, |events|, |more| - 1);
    }
    TidyPrompt(p, events, more);
  }

  lemma TidyOther(p: Setup, events: seq<Event>, e: Event)
    requires Tidy(p, events) && !e.Counted? && !e.Armed? && !e.Raised?
    ensures Tidy(p, events + [e])
  {
    var more := events + [e];
    assert forall k :: 0 <= k < |events| ==> more[k] == events[k];
    TidyPrompt(p, events, more);
  }

  ghost predicate TidyAfter(p: Setup, run: seq<Action>, begun: nat) {
    Tidy(p, After(p, run).events) && |After(p, run).recordings| == begun
  }

  lemma FailureKeepsTidy(p: Setup, run: seq<Action>, r: nat)
    requires TidyAfter(p, run, r)
    ensures TidyAfter(p, run + [Begin] + [Arm(r)] + [Raise(r)], r + 1)
  {
    var w := After(p, run);
    AfterOne(p, run, Begin);
    AfterOne(p, run + [Begin], Arm(r));
    AfterOne(p, run + [Begin] + [Arm(r)], Raise(r));
    FailureRecorded(p, w);
    TidyRecorded(p, w.events, w.store.now, w.store.NumberAt(p.Counter()) + 1);
  }

  lemma SuccessKeepsTidy(p: Setup, run: seq<Action>, r: nat)
    requires TidyAfter(p, run, r)
    ensures TidyAfter(p, run + [Forget] + [Clear], r)
  {
    var w := After(p, run);
    AfterOne(p, run, Forget);
    AfterOne(p, run + [Forget], Clear);
    TidyOther(p, w.events, Forgot(w.store.now));
    TidyOther(p, w.events + [Forgot(w.store.now)], Cleared(w.store.now));
  }

  lemma OtherKeepsTidy(p: Setup, run: seq<Action>, r: nat, a: Action)
    requires TidyAfter(p, run, r) && (a.Tick? || a.Probe?)
    ensures TidyAfter(p, run + [a], r)
  {
    AfterOne(p, run, a);
    if a.Probe? {
      var w := After(p, run);
      TidyOther(p, w.events, Probed(w.store.now, !w.store.Live(p.Gate())));
    }
  }

  lemma {:induction false} UninterruptedIsTidy(p: Setup, calls: seq<Call>)
    ensures TidyAfter(p, Uninterrupted(calls), Begun(calls))
  {
    if calls != [] {
      var head := calls[..|calls| - 1];
      UninterruptedIsTidy(p, head);
      match calls[|calls| - 1] {
        case Wait(ms) => OtherKeepsTidy(p, Uninterrupted(head), Begun(head), Tick(ms));
        case Failure => FailureKeepsTidy(p, Uninterrupted(head), Begun(head));
        case Success => SuccessKeepsTidy(p, Uninterrupted(head), Begun(head));
        case AskProbe => OtherKeepsTidy(p, Uninterrupted(head), Begun(head), Probe);
      }
    }
  }

  /**
    The adapter's promise, kept when its calls do not overlap or die: an open circuit has had
    at least `threshold` failures in one window, the last of them less than 60 seconds ago,
    and no success since.
  */
  lemma UninterruptedOpensForCause(p: Setup, calls: seq<Call>) returns (c: nat)
    requires After(p, Uninterrupted(calls)).store.Live(p.Flagged())
    ensures var w := After(p, Uninterrupted(calls)); Backs(p, w, c) && InOneWindow(w.events, c, p.window)
  {
    UninterruptedIsTidy(p, calls);
    c := PromptlyOpenForCause(p, Uninterrupted(calls));
  }

  // ------------------------------------------------------------ what may go wrong

  /** `n` failures counted at once, none of them any further. */
  function Burst(n: nat): seq<Action> {
    if n == 0 then [] else Burst(n - 1) + [Begin]
  }

  ghost predicate Bursting(p: Setup, w: World, n: nat) {
    && w.store.now == 0 && w.store.NumberAt(p.Counter()) == n && (n > 0 ==> w.store.Live(p.Counter()))
    && |w.recordings| == n && |w.events| == n
    && (forall i :: 0 <= i < n ==> w.recordings[i] == Recording(i, i + 1, ToArm) && w.events[i] == Counted(0, i + 1))
    && w.clears == 0
  }

  lemma BurstGrows(p: Setup, w: World, n: nat)
    requires Bursting(p, w, n)
    ensures Bursting(p, CountNext(p, w), n + 1)
  {
  }

  lemma {:induction false} BurstCounts(p: Setup, n: nat)
    ensures Bursting(p, After(p, Burst(n)), n)
  {
    if n > 0 {
      BurstCounts(p, n - 1);
      BurstGrows(p, After(p, Burst(n - 1)), n - 1);
      AfterOne(p, Burst(n - 1), Begin);
    }
  }

  /**
    The failure that reaches the threshold n is counted; a success comes and goes; then the failure
    raises its flag.
  */
  function Overtaken(n: nat): seq<Action>
    requires n > 0
  {
    Burst(n) + [Arm(n - 1)] + [Forget] + [Clear] + [Raise(n - 1)]
  }

  /** The last failure of the burst is ready to raise its flag, and a success has just gone by. */
  lemma SuccessGoesBy(p: Setup, n: nat)
    requires n > 1
    ensures var w, b := After(p, Burst(n) + [Arm(n - 1)] + [Forget] + [Clear]), After(p, Burst(n));
            && w.events == b.events + [Forgot(0), Cleared(0)] && |b.events| == n && w.store.now == 0
            && |w.recordings| == n && w.recordings[n - 1] == Recording(n - 1, n, ToRaise)
  {
    BurstCounts(p, n);
    var r := Burst(n);
    AfterOne(p, r, Arm(n - 1));
    AfterOne(p, r + [Arm(n - 1)], Forget);
    AfterOne(p, r + [Arm(n - 1)] + [Forget], Clear);
  }

  /** A success that falls between a failure's count and its flag does not keep the circuit closed. */
  lemma LateFlagOutlivesSuccess(p: Setup)
    requires p.threshold > 1
    ensures var w := After(p, Overtaken(p.threshold));
            && w.store.Live(p.Flagged()) && |w.events| == p.threshold + 3
            && w.events[p.threshold..] == [Forgot(0), Cleared(0), Raised(0, p.threshold - 1)]
  {
    SuccessGoesBy(p, p.threshold);
    AfterOne(p, Burst(p.threshold) + [Arm(p.threshold - 1)] + [Forget] + [Clear], Raise(p.threshold - 1));
  }

  /** `n` failures, `ms` apart, each of whose recordings dies before its EXPIRE. */
  function Unarmed(n: nat, ms: nat): seq<Action> {
    if n == 0 then [] else Unarmed(n - 1, ms) + [Tick(ms)] + [Begin]
  }

  lemma CountsOn(p: Setup, w: World, ms: nat)
    requires p.Counter() in w.store.data ==>
        w.store.data[p.Counter()] == Entry(Number(w.store.NumberAt(p.Counter())), None)
    ensures var w' := CountNext(p, w.(store := w.store.Advance(ms)));
            && w'.store.NumberAt(p.Counter()) == w.store.NumberAt(p.Counter()) + 1
            && p.Counter() in w'.store.data
            && w'.store.data[p.Counter()] == Entry(Number(w.store.NumberAt(p.Counter()) + 1), None)
            && w'.events == w.events + [Counted(w.store.now + ms, w.store.NumberAt(p.Counter()) + 1)]
  {
  }

  /** Then the counter never expires: failures however far apart add up to any threshold. */
  lemma {:induction false} UnarmedNeverForgets(p: Setup, n: nat, ms: nat)
    ensures var w := After(p, Unarmed(n, ms));
            && w.store.NumberAt(p.Counter()) == n && |w.events| == n
            && (p.Counter() in w.store.data ==> w.store.data[p.Counter()] == Entry(Number(n), None))
            && (n > 0 ==> w.events[n - 1].Counted? && w.events[n - 1].number == n)
  {
    if n > 0 {
      UnarmedNeverForgets(p, n - 1, ms);
      AfterOne(p, Unarmed(n - 1, ms), Tick(ms));
      AfterOne(p, Unarmed(n - 1, ms) + [Tick(ms)], Begin);
      CountsOn(p, After(p, Unarmed(n - 1, ms)), ms);
    }
  }

  // ------------------------------------------------------------------- the probes

  /** The times at which probes were granted. */
  function Grants(events: seq<Event>): seq<nat> {
    if events == [] then []
    else
      var rest, e := Grants(events[..|events| - 1]), events[|events| - 1];
      if e.Probed? && e.granted then rest + [e.at] else rest
  }

  ghost predicate Spaced(ts: seq<nat>) {
    forall i :: 0 <= i < |ts| - 1 ==> ts[i] + PROBE_TTL <= ts[i + 1]
  }

  /** Grants are spaced, and the gate's entry is the last one's. */
  ghost predicate GateHolds(p: Setup, store: Store, ts: seq<nat>) {
    && Spaced(ts)
    && (ts != [] ==>
          p.Gate() in store.data && store.data[p.Gate()].expires == Some(ts[|ts| - 1] + PROBE_TTL))
  }

  ghost predicate GateTracked(p: Setup, w: World) {
    GateHolds(p, w.store, Grants(w.events))
  }

  lemma GrantsSnoc(es: seq<Event>, e: Event)
    ensures Grants(es + [e]) == if e.Probed? && e.granted then Grants(es) + [e.at] else Grants(es)
  {
    assert (es + [e])[..|es|] == es;
  }

  lemma OtherLeavesGate(p: Setup, w: World, a: Action)
    requires !a.Probe?
    ensures var w' := Next(p, w, a);
            && (p.Gate() in w.store.data ==>
                  p.Gate() in w'.store.data && w'.store.data[p.Gate()] == w.store.data[p.Gate()])
            && (w'.events == w.events
                || (|w'.events| == |w.events| + 1 && w'.events == w.events + [w'.events[|w.events|]]
                    && !w'.events[|w.events|].Probed?))
  {
  }

  /** Failures, successes and the clock leave the gate alone. */
  lemma GateUntouched(p: Setup, w: World, w': World)
    requires GateTracked(p, w)
    requires p.Gate() in w.store.data ==>
               p.Gate() in w'.store.data && w'.store.data[p.Gate()] == w.store.data[p.Gate()]
    requires w'.events == w.events
             || (|w'.events| == |w.events| + 1 && w'.events == w.events + [w'.events[|w.events|]]
                 && !w'.events[|w.events|].Probed?)
    ensures GateTracked(p, w')
  {
    if w'.events != w.events {
      GrantsSnoc(w.events, w'.events[|w.events|]);
    }
  }

  lemma ProbedHolds(p: Setup, store: Store, ts: seq<nat>)
    requires GateHolds(p, store, ts)
    ensures GateHolds(p, store.SetNx(p.Gate(), Flag, PROBE_TTL), if store.Live(p.Gate()) then ts else ts + [store.now])
  {
  }

  lemma GateProbed(p: Setup, w: World)
    requires GateTracked(p, w)
    ensures GateTracked(p, Next(p, w, Probe))
  {
    ProbedHolds(p, w.store, Grants(w.events));
    GrantsSnoc(w.events, Probed(w.store.now, !w.store.Live(p.Gate())));
  }

  lemma {:induction false} GateTrackedRun(p: Setup, run: seq<Action>)
    ensures GateTracked(p, After(p, run))
  {
    if run != [] {
      var head, a := run[..|run| - 1], run[|run| - 1];
      GateTrackedRun(p, head);
      if a.Probe? {
        GateProbed(p, After(p, head));
      } else {
        OtherLeavesGate(p, After(p, head), a);
        GateUntouched(p, After(p, head), After(p, run));
      }
    }
  }

  lemma {:induction false} SpacedGap(ts: seq<nat>, i: nat, j: nat)
    requires Spaced(ts) && i <= j < |ts|
    ensures ts[j] - ts[i] >= (j - i) * PROBE_TTL
    decreases j
  {
    if i < j {
      SpacedGap(ts, i, j - 1);
    }
  }

  /** Any stretch of time of length `span` sees at most span / 10s + 1 probes through. */
  lemma ProbeRate(p: Setup, run: seq<Action>, i: nat, j: nat, begin: nat, span: nat)
    requires var ts := Grants(After(p, run).events);
             i <= j < |ts| && begin <= ts[i] && ts[j] <= begin + span
    ensures j - i + 1 <= span / 10_000 + 1
  {
    GateTrackedRun(p, run);
    SpacedRate(Grants(After(p, run).events), i, j, begin, span);
  }

  lemma SpacedRate(ts: seq<nat>, i: nat, j: nat, begin: nat, span: nat)
    requires Spaced(ts) && i <= j < |ts| && begin <= ts[i] && ts[j] <= begin + span
    ensures j - i + 1 <= span / PROBE_TTL + 1
  {
    SpacedGap(ts, i, j);
    FitsIn(j - i, span);
  }

  lemma FitsIn(n: nat, span: nat)
    requires n * PROBE_TTL <= span
    ensures n <= span / PROBE_TTL
  {
  }
}
