/**
  What every run of the session protocol keeps. The first part needs no assumption on
  time; the second assumes that no holder outlives its lock's time to live.
*/
module SessionSafety {
  import opened Wrappers
  import opened RedisLock
  import opened RedisModel
  import opened SessionProtocol

  // ------------------------------------------------------------------ one step

  /** What a lock holder's step may change: one event under its own name, its own lock entry. */
  lemma HolderStep(sh: Shared, t: Task)
    requires t.token.Some? && t.Holding()
    ensures var (sh', t') := StepTask(sh, t);
            && t' == t.(phase := t'.phase, missedAt := t'.missedAt, outcome := t'.outcome)
            && (t'.Holding() <==> !t.phase.Releasing?) && t'.phase != Arrived
            && sh'.nextToken == sh.nextToken && sh'.store.now == sh.store.now
            && (sh'.events == sh.events
                || sh'.events == sh.events + [Event(t.token.value, t.LockName(), t.req.idem, sh.store.now,
                                                    sh'.events[|sh'.events| - 1].what)])
            && (t.phase.Releasing? ==>
                  sh' == sh.(store := sh.store.DeleteIf(SessionLock(t.LockName()), Token(t.token.value))))
            && (!t.phase.Releasing? ==>
                  forall l: string ::
                    && (SessionLock(l) in sh'.store.data <==> SessionLock(l) in sh.store.data)
                    && (SessionLock(l) in sh.store.data ==>
                          sh'.store.data[SessionLock(l)] == sh.store.data[SessionLock(l)]))
  {
  }

  // ------------------------------------------------- without any timing assumption

  /** Tokens are unique, and every task between acquire and release has one. */
  ghost predicate Tokens(w: World) {
    && (forall i :: 0 <= i < |w.tasks| ==>
          && (w.tasks[i].Holding() ==> w.tasks[i].token.Some?)
          && (w.tasks[i].phase == Arrived ==> w.tasks[i].token.None?)
          && (w.tasks[i].token.Some? ==> w.tasks[i].token.value < w.shared.nextToken))
    && (forall i, j :: 0 <= i < j < |w.tasks| && w.tasks[i].token.Some? ==>
          w.tasks[i].token != w.tasks[j].token)
  }

  ghost predicate Holds(w: World, i: nat, lock: string) {
    && i < |w.tasks| && w.tasks[i].Holding() && w.tasks[i].LockName() == lock
    && w.tasks[i].token.Some?
    && w.shared.store.Has(SessionLock(lock), Token(w.tasks[i].token.value))
  }

  /** Every live session lock belongs to a task that has yet to release it. */
  ghost predicate Owned(w: World) {
    forall l: string :: w.shared.store.Live(SessionLock(l)) ==> exists i :: Holds(w, i, l)
  }

  /** Events carry the name, lock and key of their task, in time order. */
  ghost predicate Attributed(w: World) {
    && (forall p :: 0 <= p < |w.shared.events| ==>
          w.shared.events[p].token < w.shared.nextToken && w.shared.events[p].at <= w.shared.store.now)
    && (forall p, q :: 0 <= p < q < |w.shared.events| ==> w.shared.events[p].at <= w.shared.events[q].at)
    && (forall p, i :: 0 <= p < |w.shared.events| && 0 <= i < |w.tasks|
                       && w.tasks[i].token == Some(w.shared.events[p].token) ==>
          w.shared.events[p].lock == w.tasks[i].LockName() && w.shared.events[p].key == w.tasks[i].req.idem)
  }

  /** The handler has answered; a queued finalizer owns what is left, the lock included. */
  predicate HandedOver(t: Task) {
    (t.phase.Resolving? || t.phase.Persisting? || t.phase.Remembering? || t.phase.Saving? || t.phase.Releasing?)
    && t.phase.owner == Finalizer
  }

  /** Which phases a task can be in, and what must already have happened by then. */
  ghost predicate Shaped(t: Task) {
    && (t.phase.Resolving? ==> (t.phase.owner == Finalizer <==> t.req.FastQueued()))
    && (t.phase.Generating? ==> t.req.fast.None? && t.fate.refusal.None?)
    && (t.phase.Persisting? || t.phase.Remembering? ==>
          (t.phase.owner == Finalizer <==> t.req.background && t.Generates()))
    && (t.phase.Remembering? || t.phase.Saving? ==> t.Generates())
    && (t.phase.Remembering? ==> t.fate.sql.Succeeds())
    && (t.phase.Persisting? || t.phase.Remembering? ==> t.fate.refusal.None?)
    && (t.phase.Saving? && t.req.fast.None? ==> t.fate.refusal.None? && t.fate.sql.Succeeds())
    && ((t.phase.Persisting? || t.phase.Remembering? || t.phase.Saving?) && t.req.fast.None? ==>
        t.outcome == t.Verdict())
    && (t.missedAt.Some? && (t.phase.Releasing? || t.phase == Done || HandedOver(t)) ==> t.outcome == t.Verdict())
    && (t.Holding() && t.Dropped() ==>
          t.phase == Checking || t.phase == Saving(Handler) || t.phase == Releasing(Handler))
    && (t.phase.Saving? && t.phase.owner == Finalizer ==> t.req.fast.None? && t.req.background)
    && (t.phase.Saving? && t.phase.owner == Handler && t.req.fast.None? ==> !t.req.background)
    && (t.Holding() && t.phase != Checking && !t.phase.Releasing? ==> t.missedAt.Some?)
    && (t.phase == Arrived || t.phase == Checking ==> t.missedAt.None?)
  }

  ghost predicate Base(w: World) {
    && Tokens(w) && Owned(w) && Attributed(w)
    && (forall i :: 0 <= i < |w.tasks| ==> Shaped(w.tasks[i]))
  }

  lemma OwnedStep(w: World, a: Action)
    requires Tokens(w) && Owned(w)
    ensures Owned(Next(w, a))
  {
    var w' := Next(w, a);
    forall l: string | w'.shared.store.Live(SessionLock(l))
      ensures exists i :: Holds(w', i, l)
    {
      if a.Run? && a.task < |w.tasks| && w.tasks[a.task].Holding() {
        HolderStep(w.shared, w.tasks[a.task]);
      }
      if w.shared.store.Live(SessionLock(l)) {
        var i :| Holds(w, i, l);
        assert Holds(w', i, l);
      } else {
        assert Holds(w', a.task, l);
      }
    }
  }

  lemma ShapedStep(sh: Shared, t: Task)
    requires Shaped(t)
    ensures Shaped(StepTask(sh, t).1)
  {
  }

  lemma TokensStep(w: World, a: Action)
    requires Tokens(w)
    ensures Tokens(Next(w, a))
  {
    if a.Run? && a.task < |w.tasks| && w.tasks[a.task].Holding() {
      HolderStep(w.shared, w.tasks[a.task]);
    }
  }

  lemma AttributedStep(w: World, a: Action)
    requires Tokens(w) && Attributed(w)
    ensures Attributed(Next(w, a))
  {
    if a.Run? && a.task < |w.tasks| && w.tasks[a.task].Holding() {
      HolderStep(w.shared, w.tasks[a.task]);
    }
  }

  lemma BaseStep(w: World, a: Action)
    requires Base(w)
    ensures Base(Next(w, a))
  {
    TokensStep(w, a);
    OwnedStep(w, a);
    AttributedStep(w, a);
    if a.Run? && a.task < |w.tasks| {
      ShapedStep(w.shared, w.tasks[a.task]);
    }
  }

  lemma {:induction false} BaseRun(run: seq<Action>)
    ensures Base(After(run))
  {
    if run != [] {
      BaseRun(run[..|run| - 1]);
      BaseStep(After(run[..|run| - 1]), run[|run| - 1]);
    }
  }

  /**
    Whatever the timing, no step of one task takes away a lock that is live under another
    task's token: a late release with a stale token is harmless.
  */
  lemma StaleReleaseHarmless(run: seq<Action>, i: nat, j: nat, lock: string)
    requires i < |After(run).tasks| && i != j
    requires Holds(After(run), j, lock)
    ensures Holds(After(run + [Run(i)]), j, lock)
  {
    BaseRun(run);
    var w := After(run);
    assert (run + [Run(i)])[..|run|] == run;
    if w.tasks[i].Holding() {
      HolderStep(w.shared, w.tasks[i]);
    }
  }

  /**
    In every reachable state a live session lock is owned by a handler that has not yet
    answered or by a queued finalizer; so once all tasks are done, nothing stays locked.
  */
  lemma NothingStaysLocked(run: seq<Action>, lock: string)
    requires forall i :: 0 <= i < |After(run).tasks| ==> After(run).tasks[i].phase == Done
    ensures !After(run).shared.store.Live(SessionLock(lock))
  {
    BaseRun(run);
  }

  /** Every session lock expires within 75 seconds from now. */
  ghost predicate Bounded(w: World) {
    forall l: string :: SessionLock(l) in w.shared.store.data ==>
      var e := w.shared.store.data[SessionLock(l)].expires; e.Some? && e.value <= w.shared.store.now + 75_000
  }

  lemma BoundedStep(w: World, a: Action)
    requires Tokens(w) && Bounded(w)
    ensures Bounded(Next(w, a))
  {
    if a.Run? && a.task < |w.tasks| && w.tasks[a.task].Holding() {
      HolderStep(w.shared, w.tasks[a.task]);
    }
  }

  lemma {:induction false} BoundedRun(run: seq<Action>)
    ensures Bounded(After(run))
  {
    if run != [] {
      BaseRun(run[..|run| - 1]);
      BoundedRun(run[..|run| - 1]);
      BoundedStep(After(run[..|run| - 1]), run[|run| - 1]);
    }
  }

  /** A holder that dies keeps its session locked for 75 seconds at most: then, whatever came before, it is free. */
  lemma AbandonedLocksExpire(run: seq<Action>, ms: nat, lock: string)
    requires ms >= 75_000
    ensures !After(run + [Tick(ms)]).shared.store.Live(SessionLock(lock))
  {
    BoundedRun(run);
    assert (run + [Tick(ms)])[..|run|] == run;
  }

  /** How many steps of its own a task still needs before it is done. */
  function Rank(t: Task): nat {
    match t.phase
    case Arrived => 9
    case Checking => 8
    case Resolving(_) => 6
    case Generating => 5
    case Persisting(_) => 4
    case Remembering(_) => 3
    case Saving(o) => if t.req.FastQueued() && o == Handler then 7 else 2
    case Releasing(_) => 1
    case Done => 0
  }

  lemma StepRank(sh: Shared, t: Task)
    requires Shaped(t) && (t.Holding() ==> t.token.Some?) && t.phase != Done
    ensures Rank(StepTask(sh, t).1) < Rank(t)
  {
  }

  /** Every own step brings a holder closer to its release: no task keeps its lock by looping. */
  lemma EveryStepProgresses(run: seq<Action>, i: nat)
    requires i < |After(run).tasks| && After(run).tasks[i].phase != Done
    ensures Rank(After(run + [Run(i)]).tasks[i]) < Rank(After(run).tasks[i])
  {
    BaseRun(run);
    StepRank(After(run).shared, After(run).tasks[i]);
    assert (run + [Run(i)])[..|run|] == run;
  }

  // -------------------------------------------- when no holder outlives its lock

  ghost predicate EntryOf(s: Store, t: Task) {
    Entered(s, SessionLock(t.LockName()), t.token, t.acquiredAt, LOCK_TTL)
  }

  /** Every holder's entry is the one in the store. */
  ghost predicate Exclusive(w: World) {
    forall i :: 0 <= i < |w.tasks| && w.tasks[i].Holding() ==> EntryOf(w.shared.store, w.tasks[i])
  }

  /** Critical sections under one lock follow one another in the order the lock was acquired. */
  ghost predicate Serial(w: World) {
    && (forall p, q :: 0 <= p < q < |w.shared.events| && w.shared.events[p].lock == w.shared.events[q].lock ==>
          w.shared.events[p].token <= w.shared.events[q].token)
    && (forall i, p :: 0 <= i < |w.tasks| && w.tasks[i].Holding() && 0 <= p < |w.shared.events|
                       && w.shared.events[p].lock == w.tasks[i].LockName() ==>
          w.tasks[i].token.Some? && w.shared.events[p].token <= w.tasks[i].token.value)
  }

  lemma OneHolder(w: World, i: nat, j: nat)
    requires Tokens(w) && Exclusive(w)
    requires i < |w.tasks| && j < |w.tasks| && i != j && w.tasks[i].Holding() && w.tasks[j].Holding()
    ensures w.tasks[i].LockName() != w.tasks[j].LockName()
  {
    assert EntryOf(w.shared.store, w.tasks[i]) && EntryOf(w.shared.store, w.tasks[j]);
    assert w.tasks[if i < j then i else j].token != w.tasks[if i < j then j else i].token;
  }

  lemma ExclusiveStep(w: World, a: Action)
    requires Base(w) && Exclusive(w) && Timely(w)
    ensures Exclusive(Next(w, a))
  {
    var w' := Next(w, a);
    forall j | 0 <= j < |w'.tasks| && w'.tasks[j].Holding()
      ensures EntryOf(w'.shared.store, w'.tasks[j])
    {
      if a.Run? && a.task < |w.tasks| && w.tasks[a.task].Holding() {
        HolderStep(w.shared, w.tasks[a.task]);
        if j != a.task {
          OneHolder(w, a.task, j);
        }
      }
      if a.Run? && a.task == j {
      } else if j < |w.tasks| {
        assert w'.tasks[j] == w.tasks[j];
        assert EntryOf(w.shared.store, w.tasks[j]);
      }
    }
  }

  lemma SerialStep(w: World, a: Action)
    requires Base(w) && Exclusive(w) && Serial(w)
    ensures Serial(Next(w, a))
  {
    if a.Run? && a.task < |w.tasks| && w.tasks[a.task].Holding() {
      HolderStep(w.shared, w.tasks[a.task]);
      forall j | 0 <= j < |w.tasks| && j != a.task && w.tasks[j].Holding()
        ensures w.tasks[j].LockName() != w.tasks[a.task].LockName()
      {
        OneHolder(w, a.task, j);
      }
    }
  }

  lemma TimelyPrefix(run: seq<Action>)
    requires run != [] && TimelyRun(run)
    ensures TimelyRun(run[..|run| - 1]) && Timely(After(run[..|run| - 1]))
  {
    var head := run[..|run| - 1];
    forall n | 0 <= n <= |head|
      ensures Timely(After(head[..n]))
    {
      assert head[..n] == run[..n];
    }
    assert head[..|head|] == head;
  }

  lemma {:induction false} TimelyRunIsSafe(run: seq<Action>)
    requires TimelyRun(run)
    ensures Exclusive(After(run)) && Serial(After(run))
  {
    if run != [] {
      var head := run[..|run| - 1];
      TimelyPrefix(run);
      TimelyRunIsSafe(head);
      BaseRun(head);
      ExclusiveStep(After(head), run[|run| - 1]);
      SerialStep(After(head), run[|run| - 1]);
    }
  }

  /** At most one task per lock name is between acquire and release, handover included. */
  lemma MutualExclusion(run: seq<Action>, i: nat, j: nat)
    requires TimelyRun(run)
    requires i < |After(run).tasks| && j < |After(run).tasks| && i != j
    requires After(run).tasks[i].Holding() && After(run).tasks[j].Holding()
    ensures After(run).tasks[i].LockName() != After(run).tasks[j].LockName()
  {
    BaseRun(run);
    TimelyRunIsSafe(run);
    OneHolder(After(run), i, j);
  }
}
