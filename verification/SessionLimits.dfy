/**
  Where the session guarantees stop: hits come only from results that were really stored,
  which the code as written never manages; and ordering holds per lock name, which is not
  per session when a request names no session.
*/
module SessionLimits {
  import opened Wrappers
  import opened RedisModel
  import opened SessionProtocol
  import opened SessionSafety
  import opened SessionTheorems

  // ------------------------------------------------------------- hits are genuine

  ghost predicate Backed(events: seq<Event>, key: string, reply: Reply, expires: nat) {
    exists p :: 0 <= p < |events| && StoredUnder(events[p], key) && events[p].what == Stored(reply, expires)
  }

  ghost predicate Genuine(w: World) {
    && (forall k: string :: IdemResult(k) in w.shared.store.data ==>
          var entry := w.shared.store.data[IdemResult(k)];
          && entry.value.Saved? && entry.expires.Some?
          && Backed(w.shared.events, k, entry.value.reply, entry.expires.value))
    && (forall q :: 0 <= q < |w.shared.events| && w.shared.events[q].what.Hit? ==>
          && w.shared.events[q].key.Some?
          && exists expires: nat :: w.shared.events[q].at < expires
               && Backed(w.shared.events[..q], w.shared.events[q].key.value, w.shared.events[q].what.reply, expires))
  }

  lemma BackedExtends(events: seq<Event>, more: seq<Event>, key: string, reply: Reply, expires: nat)
    requires events <= more && Backed(events, key, reply, expires)
    ensures Backed(more, key, reply, expires)
  {
    var p :| 0 <= p < |events| && StoredUnder(events[p], key) && events[p].what == Stored(reply, expires);
    assert more[p] == events[p];
  }

  /** What a holder's step does to the stored results. */
  lemma HolderResults(sh: Shared, t: Task)
    requires t.token.Some? && t.Holding()
    ensures var sh' := StepTask(sh, t).0;
            && (forall k: string :: IdemResult(k) in sh'.store.data ==>
                  || (IdemResult(k) in sh.store.data && sh'.store.data[IdemResult(k)] == sh.store.data[IdemResult(k)])
                  || (|sh'.events| > |sh.events| && StoredUnder(sh'.events[|sh.events|], k)
                      && var e := sh'.events[|sh.events|];
                         sh'.store.data[IdemResult(k)] == Entry(Saved(e.what.reply), Some(e.what.expires))))
            && (|sh'.events| > |sh.events| && sh'.events[|sh.events|].what.Hit? ==>
                  && t.req.Keyed()
                  && sh.store.Has(IdemResult(t.req.idem.value), Saved(sh'.events[|sh.events|].what.reply)))
  {
  }

  lemma GenuineHolder(w: World, i: nat)
    requires Base(w) && Genuine(w) && i < |w.tasks| && w.tasks[i].Holding()
    ensures Genuine(Next(w, Run(i)))
  {
    HolderStep(w.shared, w.tasks[i]);
    HolderResults(w.shared, w.tasks[i]);
    var w' := Next(w, Run(i));
    var es, es' := w.shared.events, w'.shared.events;
    forall k: string | IdemResult(k) in w'.shared.store.data
      ensures var entry := w'.shared.store.data[IdemResult(k)];
              && entry.value.Saved? && entry.expires.Some?
              && Backed(es', k, entry.value.reply, entry.expires.value)
    {
      if IdemResult(k) in w.shared.store.data
         && w'.shared.store.data[IdemResult(k)] == w.shared.store.data[IdemResult(k)] {
        var entry := w.shared.store.data[IdemResult(k)];
        BackedExtends(es, es', k, entry.value.reply, entry.expires.value);
      } else {
        assert StoredUnder(es'[|es|], k);
      }
    }
    forall q | 0 <= q < |es'| && es'[q].what.Hit?
      ensures es'[q].key.Some?
      ensures exists expires: nat ::
                es'[q].at < expires && Backed(es'[..q], es'[q].key.value, es'[q].what.reply, expires)
    {
      if q < |es| {
        assert es'[..q] == es[..q] && es'[q] == es[q];
      } else {
        assert es'[..q] == es;
        var entry := w.shared.store.data[IdemResult(w.tasks[i].req.idem.value)];
        assert Backed(es, w.tasks[i].req.idem.value, entry.value.reply, entry.expires.value);
      }
    }
  }

  /** Arrivals, ticks, admissions and finished requests store nothing and hit nothing. */
  lemma GenuineOther(w: World, a: Action)
    requires Genuine(w) && !(a.Run? && a.task < |w.tasks| && w.tasks[a.task].Holding())
    ensures Genuine(Next(w, a))
  {
    var w' := Next(w, a);
    assert w'.shared.events == w.shared.events;
    assert forall k: string :: IdemResult(k) in w'.shared.store.data ==>
      IdemResult(k) in w.shared.store.data && w'.shared.store.data[IdemResult(k)] == w.shared.store.data[IdemResult(k)];
  }

  lemma {:induction false} GenuineRun(run: seq<Action>)
    ensures Genuine(After(run))
  {
    if run != [] {
      var head, a := run[..|run| - 1], run[|run| - 1];
      GenuineRun(head);
      BaseRun(head);
      if a.Run? && a.task < |After(head).tasks| && After(head).tasks[a.task].Holding() {
        GenuineHolder(After(head), a.task);
      } else {
        GenuineOther(After(head), a);
      }
    }
  }

  /**
    As written, every save fails: the response dump still holds its session id as a UUID,
    which the JSON encoder refuses. So no run ever serves an idempotency hit, and a retried
    key always runs the whole pipeline again.
  */
  lemma FailingSavesNeverHit(run: seq<Action>, q: nat)
    requires forall n :: 0 <= n < |run| && run[n].Arrive? ==> run[n].fate.saves == SetFails
    requires q < |After(run).shared.events|
    ensures !After(run).shared.events[q].what.Hit? && !After(run).shared.events[q].what.Stored?
  {
    GenuineRun(run);
    NothingStored(run);
  }

  lemma {:induction false} NothingStored(run: seq<Action>)
    requires forall n :: 0 <= n < |run| && run[n].Arrive? ==> run[n].fate.saves == SetFails
    ensures forall i :: 0 <= i < |After(run).tasks| ==> After(run).tasks[i].fate.saves == SetFails
    ensures forall p :: 0 <= p < |After(run).shared.events| ==> !After(run).shared.events[p].what.Stored?
  {
    if run != [] {
      var head := run[..|run| - 1];
      assert forall n :: 0 <= n < |head| ==> head[n] == run[n];
      NothingStored(head);
      BaseRun(head);
      var w, a := After(head), run[|run| - 1];
      if a.Run? && a.task < |w.tasks| && w.tasks[a.task].Holding() {
        HolderStep(w.shared, w.tasks[a.task]);
        HolderEvent(w.shared, w.tasks[a.task]);
      }
    }
  }

  // ------------------------------------------------ two requests, two locks

  /** Nothing keeps it from its pipeline: a probe or closed circuit, and a readable store if it has a key. */
  predicate Lets(req: Request, f: Fate) {
    f.admitted && (req.Keyed() ==> f.readable)
  }

  /** Let in, it leaves a message pair in the session. */
  predicate Writes(req: Request, f: Fate, session: string) {
    Lets(req, f) && NewTask(req, f).Commits() && NewTask(req, f).Session() == session
  }

  lemma AfterOne(run: seq<Action>, a: Action)
    ensures After(run + [a]) == Next(After(run), a)
  {
    assert (run + [a])[..|run|] == run;
  }

  /** The event of an idempotency check that misses; a request without a key makes none. */
  function Miss(sh: Shared, req: Request): seq<Event> {
    if req.Keyed() then [Event(sh.nextToken, req.LockName(), req.idem, sh.store.now, Missed)] else []
  }

  /** A request that has taken its lock and passed its check. */
  function Inside(req: Request, f: Fate, token: nat, now: nat): Task {
    Task(req, f, AfterMiss(NewTask(req, f)), Some(token), now, Some(now), Pending)
  }

  function Locked(sh: Shared, req: Request): Shared {
    Shared(sh.store.SetEx(SessionLock(req.LockName()), Token(sh.nextToken), LOCK_TTL), sh.nextToken + 1, sh.events)
  }

  function Opened(sh: Shared, req: Request): Shared {
    Locked(sh, req).(events := sh.events + Miss(sh, req))
  }

  /** A task's next k steps, and the same in a run. */
  function Steps(k: nat, sh: Shared, t: Task): (Shared, Task) {
    if k == 0 then (sh, t) else var (sh', t') := StepTask(sh, t); Steps(k - 1, sh', t')
  }

  function Runs(k: nat, i: nat): (r: seq<Action>)
    ensures |r| == k && forall n :: 0 <= n < k ==> r[n] == Run(i)
  {
    if k == 0 then [] else [Run(i)] + Runs(k - 1, i)
  }

  lemma {:induction false} RunsAreSteps(run: seq<Action>, k: nat, i: nat)
    requires i < |After(run).tasks|
    ensures var w := After(run);
            var (sh, t) := Steps(k, w.shared, w.tasks[i]);
            After(run + Runs(k, i)) == World(sh, w.tasks[i := t])
    decreases k
  {
    if k == 0 {
      assert run + Runs(0, i) == run;
    } else {
      AfterOne(run, Run(i));
      RunsAreSteps(run + [Run(i)], k - 1, i);
      assert run + Runs(k, i) == run + [Run(i)] + Runs(k - 1, i);
    }
  }

  /** Two steps let it in. */
  lemma EntrySteps(sh: Shared, req: Request, f: Fate)
    requires Lets(req, f) && !sh.store.Live(SessionLock(req.LockName()))
    requires req.Keyed() ==> !sh.store.Live(IdemResult(req.idem.value))
    ensures Steps(2, sh, NewTask(req, f)) == (Opened(sh, req), Inside(req, f, sh.nextToken, sh.store.now))
  {
    var t := Inside(req, f, sh.nextToken, sh.store.now);
    assert req.Keyed() ==> Locked(sh, req).store.Get(IdemResult(req.idem.value)) == None;
    assert !req.Keyed() ==> Opened(sh, req) == Locked(sh, req);
    assert StepTask(sh, NewTask(req, f)) == (Locked(sh, req), t.(phase := Checking, missedAt := None));
    assert Steps(1, Locked(sh, req), t.(phase := Checking, missedAt := None)) == (Opened(sh, req), t);
  }

  lemma RunInside(run: seq<Action>, i: nat, req: Request, f: Fate)
    requires i < |After(run).tasks| && After(run).tasks[i] == NewTask(req, f)
    requires var sh := After(run).shared;
             && Lets(req, f) && !sh.store.Live(SessionLock(req.LockName()))
             && (req.Keyed() ==> !sh.store.Live(IdemResult(req.idem.value)))
    ensures var w := After(run);
            After(run + Runs(2, i))
            == World(Opened(w.shared, req), w.tasks[i := Inside(req, f, w.shared.nextToken, w.shared.store.now)])
  {
    EntrySteps(After(run).shared, req, f);
    RunsAreSteps(run, 2, i);
  }

  /** Two requests arrive, and both are let in. */
  function BothInside(r0: Request, f0: Fate, r1: Request, f1: Fate): seq<Action> {
    [] + [Arrive(r0, f0)] + [Arrive(r1, f1)] + Runs(2, 0) + Runs(2, 1)
  }

  lemma Arrivals(r0: Request, f0: Fate, r1: Request, f1: Fate)
    ensures After([] + [Arrive(r0, f0)] + [Arrive(r1, f1)]) == World(Init().shared, [NewTask(r0, f0), NewTask(r1, f1)])
  {
    AfterOne([], Arrive(r0, f0));
    AfterOne([] + [Arrive(r0, f0)], Arrive(r1, f1));
  }

  /** The first leaves nothing in the second's way. */
  lemma SecondIsFree(r0: Request, r1: Request)
    requires r0.LockName() != r1.LockName()
    ensures var s := Opened(Init().shared, r0).store;
            !s.Live(SessionLock(r1.LockName())) && (r1.Keyed() ==> !s.Live(IdemResult(r1.idem.value)))
  {
  }

  lemma FirstInside(run: seq<Action>, r0: Request, f0: Fate, t: Task)
    requires Lets(r0, f0) && After(run) == World(Init().shared, [NewTask(r0, f0), t])
    ensures After(run + Runs(2, 0)) == World(Opened(Init().shared, r0), [Inside(r0, f0, 0, 0), t])
  {
    RunInside(run, 0, r0, f0);
    assert [NewTask(r0, f0), t][0 := Inside(r0, f0, 0, 0)] == [Inside(r0, f0, 0, 0), t];
  }

  lemma SecondInside(run: seq<Action>, r0: Request, t: Task, r1: Request, f1: Fate)
    requires Lets(r1, f1) && r0.LockName() != r1.LockName()
    requires After(run) == World(Opened(Init().shared, r0), [t, NewTask(r1, f1)])
    ensures After(run + Runs(2, 1)) == World(Opened(Opened(Init().shared, r0), r1), [t, Inside(r1, f1, 1, 0)])
  {
    SecondIsFree(r0, r1);
    RunInside(run, 1, r1, f1);
    assert [t, NewTask(r1, f1)][1 := Inside(r1, f1, 1, 0)] == [t, Inside(r1, f1, 1, 0)];
  }

  /** Under different locks neither waits for the other. */
  lemma BothAreInside(r0: Request, f0: Fate, r1: Request, f1: Fate)
    requires Lets(r0, f0) && Lets(r1, f1) && r0.LockName() != r1.LockName()
    ensures After(BothInside(r0, f0, r1, f1))
            == World(Opened(Opened(Init().shared, r0), r1), [Inside(r0, f0, 0, 0), Inside(r1, f1, 1, 0)])
  {
    var two := [] + [Arrive(r0, f0)] + [Arrive(r1, f1)];
    Arrivals(r0, f0, r1, f1);
    FirstInside(two, r0, f0, NewTask(r1, f1));
    SecondInside(two + Runs(2, 0), r0, Inside(r0, f0, 0, 0), r1, f1);
  }

  lemma {:induction false} NoTickNoDelay(run: seq<Action>)
    requires forall n :: 0 <= n < |run| ==> !run[n].Tick?
    ensures After(run).shared.store.now == 0
  {
    if run != [] {
      NoTickNoDelay(run[..|run| - 1]);
      BaseRun(run[..|run| - 1]);
      var w, a := After(run[..|run| - 1]), run[|run| - 1];
      if a.Run? && a.task < |w.tasks| && w.tasks[a.task].Holding() {
        HolderStep(w.shared, w.tasks[a.task]);
      }
    }
  }

  lemma UntickedIsTimely(run: seq<Action>)
    requires forall n :: 0 <= n < |run| ==> !run[n].Tick?
    ensures TimelyRun(run)
  {
    forall n | 0 <= n <= |run| ensures Timely(After(run[..n])) {
      NoTickNoDelay(run[..n]);
    }
  }

  /** Both are let in, then one goes `k` steps on its own, then the other `m`. */
  function OneAhead(r0: Request, f0: Fate, r1: Request, f1: Fate, i: nat, k: nat, j: nat, m: nat): seq<Action> {
    BothInside(r0, f0, r1, f1) + Runs(k, i) + Runs(m, j)
  }

  /** No request arrives but these two, as often as they like. */
  ghost predicate Only(run: seq<Action>, r0: Request, f0: Fate, r1: Request, f1: Fate) {
    forall n :: 0 <= n < |run| && run[n].Arrive? ==>
      (run[n].req == r0 && run[n].fate == f0) || (run[n].req == r1 && run[n].fate == f1)
  }

  lemma OneAheadIsTimely(r0: Request, f0: Fate, r1: Request, f1: Fate, i: nat, k: nat, j: nat, m: nat)
    ensures var run := OneAhead(r0, f0, r1, f1, i, k, j, m); TimelyRun(run) && Only(run, r0, f0, r1, f1)
  {
    UntickedIsTimely(OneAhead(r0, f0, r1, f1, i, k, j, m));
  }

  /** Each goes on from where it was let in; what the first did is only in what they share. */
  lemma AheadState(r0: Request, f0: Fate, r1: Request, f1: Fate, i: nat, k: nat, j: nat, m: nat)
    requires Lets(r0, f0) && Lets(r1, f1) && r0.LockName() != r1.LockName() && i < 2 && j < 2 && i != j
    ensures var ts := [Inside(r0, f0, 0, 0), Inside(r1, f1, 1, 0)];
            var sh := Steps(k, Opened(Opened(Init().shared, r0), r1), ts[i]).0;
            After(OneAhead(r0, f0, r1, f1, i, k, j, m)).shared == Steps(m, sh, ts[j]).0
  {
    BothAreInside(r0, f0, r1, f1);
    RunsAreSteps(BothInside(r0, f0, r1, f1), k, i);
    RunsAreSteps(BothInside(r0, f0, r1, f1) + Runs(k, i), m, j);
  }

  // --------------------------------------------------- what a request still owes

  /** Its pipeline runs, and its pair is still to come. */
  ghost predicate CommitDue(t: Task) {
    t.Holding() && t.token.Some? && t.missedAt.Some? && Shaped(t) && BeforeCommit(t) && t.Commits()
  }

  ghost predicate StoreDue(t: Task) {
    t.Holding() && t.token.Some? && t.missedAt.Some? && Shaped(t) && BeforeSave(t) && t.Stores()
  }

  function CommitOf(t: Task, now: nat): Event
    requires t.token.Some?
  {
    Event(t.token.value, t.LockName(), t.req.idem, now,
          Committed(t.Session(), t.req.message, t.Content(), !t.Generates()))
  }

  function StoreOf(t: Task, now: nat): Event
    requires t.token.Some?
  {
    Event(t.token.value, t.LockName(), t.req.idem, now, Stored(t.Answer(), now + IDEM_TTL))
  }

  /** The history has grown, and ends with `e`; no time has passed. */
  ghost predicate Ends(sh': Shared, sh: Shared, e: Event) {
    && sh'.store.now == sh.store.now && |sh'.events| > |sh.events| && sh.events <= sh'.events
    && sh'.events[|sh'.events| - 1] == e
  }

  lemma {:induction false} NoCommits(es: seq<Event>, session: string)
    requires forall p :: 0 <= p < |es| ==> !es[p].what.Committed?
    ensures CommitsOf(es, session) == []
  {
    if es != [] {
      NoCommits(es[..|es| - 1], session);
    }
  }

  lemma CommitsSnoc(es: seq<Event>, e: Event, session: string)
    ensures CommitsOf(es + [e], session)
            == CommitsOf(es, session) + (if e.what.Committed? && e.what.session == session then [e] else [])
  {
    assert (es + [e])[..|es|] == es;
  }

  lemma InsideOwes(req: Request, f: Fate, token: nat, now: nat)
    ensures NewTask(req, f).Commits() ==> CommitDue(Inside(req, f, token, now))
    ensures NewTask(req, f).Stores() ==> StoreDue(Inside(req, f, token, now))
  {
  }

  /** A holder's step keeps what identifies it, and takes nothing back. */
  lemma StepKeeps(sh: Shared, t: Task)
    requires t.token.Some? && t.Holding() && Shaped(t) && t.missedAt.Some?
    ensures var t' := StepTask(sh, t).1;
            && Shaped(t') && Rank(t') < Rank(t) && t'.token == t.token && t'.missedAt == t.missedAt
            && t'.req == t.req && t'.fate == t.fate
            && (t'.Holding() <==> !t.phase.Releasing?)
  {
    HolderStep(sh, t);
    ShapedStep(sh, t);
    StepRank(sh, t);
  }

  lemma SameOwed(t: Task, t': Task, now: nat)
    requires t.token.Some? && t'.token == t.token && t'.req == t.req && t'.fate == t.fate
    ensures CommitOf(t', now) == CommitOf(t, now) && StoreOf(t', now) == StoreOf(t, now)
    ensures (t'.Commits() <==> t.Commits()) && (t'.Stores() <==> t.Stores())
  {
  }

  /** A step that leaves the commit due, adding no pair to the session. */
  ghost predicate CommitWaits(sh: Shared, t: Task, sh': Shared, t': Task, session: string) {
    && t.token.Some? && CommitDue(t') && Rank(t') < Rank(t) && t'.Session() == session
    && CommitOf(t', sh.store.now) == CommitOf(t, sh.store.now)
    && sh.events <= sh'.events && sh'.store.now == sh.store.now
    && CommitsOf(sh'.events, session) == CommitsOf(sh.events, session)
  }

  lemma CommitStep(sh: Shared, t: Task, session: string)
    requires CommitDue(t) && t.Session() == session
    ensures var (sh', t') := StepTask(sh, t);
            if BeforeCommit(t') then CommitWaits(sh, t, sh', t', session)
            else Ends(sh', sh, CommitOf(t, sh.store.now)) && |sh'.events| == |sh.events| + 1
  {
    StepKeeps(sh, t);
    HolderStep(sh, t);
    HolderEvent(sh, t);
    SameOwed(t, StepTask(sh, t).1, sh.store.now);
    var sh' := StepTask(sh, t).0;
    if sh'.events != sh.events {
      CommitsSnoc(sh.events, sh'.events[|sh.events|], session);
    }
  }

  /** The history has grown to end with `e`, which is the only pair added to the session. */
  ghost predicate CommitsTo(sh': Shared, sh: Shared, e: Event, session: string) {
    Ends(sh', sh, e) && CommitsOf(sh'.events, session) == CommitsOf(sh.events, session) + [e]
  }

  /** A commit that is due comes, after some steps of the task alone. */
  lemma {:induction false} StepsToCommit(sh: Shared, t: Task, session: string) returns (k: nat)
    requires CommitDue(t) && t.Session() == session
    ensures CommitsTo(Steps(k, sh, t).0, sh, CommitOf(t, sh.store.now), session)
    decreases Rank(t)
  {
    var (sh', t') := StepTask(sh, t);
    CommitStep(sh, t, session);
    if BeforeCommit(t') {
      k := StepsToCommit(sh', t', session);
      k := k + 1;
    } else {
      k := 1;
      OneStep(sh, t);
      CommitsSnoc(sh.events, CommitOf(t, sh.store.now), session);
      assert sh'.events == sh.events + [CommitOf(t, sh.store.now)];
    }
  }

  lemma OneStep(sh: Shared, t: Task)
    ensures Steps(1, sh, t) == StepTask(sh, t)
  {
    var (sh', t') := StepTask(sh, t);
    assert Steps(0, sh', t') == (sh', t');
  }

  ghost predicate StoreWaits(sh: Shared, t: Task, sh': Shared, t': Task) {
    && t.token.Some? && StoreDue(t') && Rank(t') < Rank(t) && StoreOf(t', sh.store.now) == StoreOf(t, sh.store.now)
    && sh.events <= sh'.events && sh'.store.now == sh.store.now
  }

  lemma StoreStep(sh: Shared, t: Task)
    requires StoreDue(t)
    ensures var (sh', t') := StepTask(sh, t);
            if BeforeSave(t') then StoreWaits(sh, t, sh', t') else Ends(sh', sh, StoreOf(t, sh.store.now))
  {
    StepKeeps(sh, t);
    HolderStep(sh, t);
    HolderEvent(sh, t);
    SameOwed(t, StepTask(sh, t).1, sh.store.now);
  }

  lemma {:induction false} StepsToStore(sh: Shared, t: Task) returns (k: nat)
    requires StoreDue(t)
    ensures Ends(Steps(k, sh, t).0, sh, StoreOf(t, sh.store.now))
    decreases Rank(t)
  {
    var (sh', t') := StepTask(sh, t);
    StoreStep(sh, t);
    if BeforeSave(t') {
      k := StepsToStore(sh', t');
      k := k + 1;
    } else {
      k := 1;
      OneStep(sh, t);
    }
  }

  /** One request commits, then another. */
  lemma BothCommit(sh: Shared, t: Task, t': Task, session: string) returns (k: nat, m: nat)
    requires CommitDue(t) && t.Session() == session && CommitDue(t') && t'.Session() == session
    ensures var sh' := Steps(m, Steps(k, sh, t).0, t').0;
            CommitsOf(sh'.events, session)
            == CommitsOf(sh.events, session) + [CommitOf(t, sh.store.now), CommitOf(t', sh.store.now)]
  {
    k := StepsToCommit(sh, t, session);
    m := StepsToCommit(Steps(k, sh, t).0, t', session);
  }

  /** Event `p` is `e`, and the last one is `e'`. */
  ghost predicate EndsWithBoth(es: seq<Event>, p: nat, e: Event, e': Event) {
    p < |es| - 1 && es[p] == e && es[|es| - 1] == e'
  }

  lemma EndsTwice(sh: Shared, sh': Shared, sh'': Shared, e: Event, e': Event) returns (p: nat)
    requires Ends(sh', sh, e) && Ends(sh'', sh', e')
    ensures EndsWithBoth(sh''.events, p, e, e')
  {
    p := |sh'.events| - 1;
  }

  /** One request stores its result, then another commits. */
  lemma StoreThenCommit(sh: Shared, t: Task, t': Task) returns (k: nat, m: nat, p: nat)
    requires StoreDue(t) && CommitDue(t')
    ensures EndsWithBoth(Steps(m, Steps(k, sh, t).0, t').0.events, p,
                StoreOf(t, sh.store.now), CommitOf(t', sh.store.now))
  {
    k := StepsToStore(sh, t);
    m := StepsToCommit(Steps(k, sh, t).0, t', t'.Session());
    p := EndsTwice(sh, Steps(k, sh, t).0, Steps(m, Steps(k, sh, t).0, t').0,
        StoreOf(t, sh.store.now), CommitOf(t', sh.store.now));
  }

  // ------------------------------------------------------------- message order

  /**
    For any two requests that write one session under different locks there is a timely run in
    which the one that took its lock later commits first.
  */
  lemma LaterCommitsFirst(r0: Request, f0: Fate, r1: Request, f1: Fate, session: string) returns (run: seq<Action>)
    requires Writes(r0, f0, session) && Writes(r1, f1, session) && r0.LockName() != r1.LockName()
    ensures TimelyRun(run) && Only(run, r0, f0, r1, f1)
    ensures CommitsOf(After(run).shared.events, session)
            == [CommitOf(Inside(r1, f1, 1, 0), 0), CommitOf(Inside(r0, f0, 0, 0), 0)]
  {
    var sh, t0, t1 := Opened(Opened(Init().shared, r0), r1), Inside(r0, f0, 0, 0), Inside(r1, f1, 1, 0);
    InsideOwes(r0, f0, 0, 0);
    InsideOwes(r1, f1, 1, 0);
    NoCommits(sh.events, session);
    var k, m := BothCommit(sh, t1, t0, session);
    run := OneAhead(r0, f0, r1, f1, 1, k, 0, m);
    OneAheadIsTimely(r0, f0, r1, f1, 1, k, 0, m);
    AheadState(r0, f0, r1, f1, 1, k, 0, m);
  }

  /**
    A request without a session id locks its user, not the session it creates. So any
    follow-up naming that session can commit before the newcomer does: the session's table
    then holds the later exchange first, in a run that is timely throughout.
  */
  lemma NewcomerCanBeOvertaken(newcomer: Request, f0: Fate, followUp: Request, f1: Fate) returns (run: seq<Action>)
    requires newcomer.session == None && newcomer.user != f0.created && followUp.session == Some(f0.created)
    requires Writes(newcomer, f0, f0.created) && Writes(followUp, f1, f0.created)
    ensures TimelyRun(run) && Only(run, newcomer, f0, followUp, f1)
    ensures RowsOf(Table(After(run).shared.events), f0.created)
            == [UserRow(followUp.message), AssistantRow(NewTask(followUp, f1).Content()),
                UserRow(newcomer.message), AssistantRow(NewTask(newcomer, f0).Content())]
  {
    run := LaterCommitsFirst(newcomer, f0, followUp, f1, f0.created);
    TableIsPairs(After(run).shared.events, f0.created);
    var e1, e0 := CommitOf(Inside(followUp, f1, 1, 0), 0), CommitOf(Inside(newcomer, f0, 0, 0), 0);
    assert [e1, e0][..1] == [e1] && [e1][..0] == [];
    assert SqlRows([e1]) == [UserRow(e1.what.user), AssistantRow(e1.what.assistant)];
  }

  lemma StepKeepsRequest(sh: Shared, t: Task)
    ensures StepTask(sh, t).1.req == t.req && StepTask(sh, t).1.fate == t.fate
  {
  }

  lemma {:induction false} OnlyTheseTasks(run: seq<Action>, r0: Request, f0: Fate, r1: Request, f1: Fate)
    requires Only(run, r0, f0, r1, f1)
    ensures forall i :: 0 <= i < |After(run).tasks| ==>
              var t := After(run).tasks[i]; (t.req == r0 && t.fate == f0) || (t.req == r1 && t.fate == f1)
  {
    if run != [] {
      var head, a := run[..|run| - 1], run[|run| - 1];
      assert forall n :: 0 <= n < |head| ==> head[n] == run[n];
      OnlyTheseTasks(head, r0, f0, r1, f1);
      if a.Run? && a.task < |After(head).tasks| {
        StepKeepsRequest(After(head).shared, After(head).tasks[a.task]);
      }
    }
  }

  /** In no timely run of the two does their session's log leave lock order. */
  ghost predicate AlwaysOrdered(r0: Request, f0: Fate, r1: Request, f1: Fate, session: string) {
    forall run: seq<Action> ::
      TimelyRun(run) && Only(run, r0, f0, r1, f1) ==> InLockOrder(CommitsOf(After(run).shared.events, session))
  }

  /** Order is kept between any two requests that write one session if and only if they take the same lock. */
  lemma OrderIff(r0: Request, f0: Fate, r1: Request, f1: Fate, session: string)
    requires Writes(r0, f0, session) && Writes(r1, f1, session)
    ensures AlwaysOrdered(r0, f0, r1, f1, session) <==> r0.LockName() == r1.LockName()
  {
    if r0.LockName() == r1.LockName() {
      forall run: seq<Action> | TimelyRun(run) && Only(run, r0, f0, r1, f1)
        ensures InLockOrder(CommitsOf(After(run).shared.events, session))
      {
        OnlyTheseTasks(run, r0, f0, r1, f1);
        SqlLogInLockOrder(run, session, r0.LockName());
      }
    } else {
      var run := LaterCommitsFirst(r0, f0, r1, f1, session);
      var cs := CommitsOf(After(run).shared.events, session);
      assert cs[0].token == 1 && cs[1].token == 0;
    }
  }

  // ------------------------------------------------- a key used under two locks

  /**
    The key is global but the lock is not. For any two requests with one key and different
    locks, the one due to store its result and the other to commit, there is a timely run in
    which the first stores and the second, which had already missed, then commits under the
    same key.
  */
  lemma SharedKeyRunsTwice(r0: Request, f0: Fate, r1: Request, f1: Fate) returns (run: seq<Action>, p: nat)
    requires Lets(r0, f0) && NewTask(r0, f0).Stores() && Lets(r1, f1) && NewTask(r1, f1).Commits()
    requires r1.idem == r0.idem && r0.LockName() != r1.LockName()
    ensures TimelyRun(run) && Only(run, r0, f0, r1, f1)
    ensures EndsWithBoth(After(run).shared.events, p,
                StoreOf(Inside(r0, f0, 0, 0), 0), CommitOf(Inside(r1, f1, 1, 0), 0))
  {
    var sh, t0, t1 := Opened(Opened(Init().shared, r0), r1), Inside(r0, f0, 0, 0), Inside(r1, f1, 1, 0);
    InsideOwes(r0, f0, 0, 0);
    InsideOwes(r1, f1, 1, 0);
    var k, m, q := StoreThenCommit(sh, t0, t1);
    p := q;
    run := OneAhead(r0, f0, r1, f1, 0, k, 1, m);
    OneAheadIsTimely(r0, f0, r1, f1, 0, k, 1, m);
    AheadState(r0, f0, r1, f1, 0, k, 1, m);
  }

  /**
    In no timely run of the two requests, whatever their fates, does the key execute again while
    its result is stored.
  */
  ghost predicate AlwaysSingle(r0: Request, r1: Request) {
    forall run: seq<Action> :: TimelyRun(run) && OfThese(run, r0, r1) ==> SingleExecution(After(run).shared.events)
  }

  ghost predicate OfThese(run: seq<Action>, r0: Request, r1: Request) {
    forall n :: 0 <= n < |run| && run[n].Arrive? ==> run[n].req == r0 || run[n].req == r1
  }

  /** Any two requests with one key execute it once if and only if they take the same lock. */
  lemma SingleExecutionIff(r0: Request, r1: Request)
    requires r0.Keyed() && r1.idem == r0.idem
    ensures AlwaysSingle(r0, r1) <==> r0.LockName() == r1.LockName()
  {
    if r0.LockName() == r1.LockName() {
      forall run: seq<Action> | TimelyRun(run) && OfThese(run, r0, r1)
        ensures SingleExecution(After(run).shared.events)
      {
        NoSecondExecution(_ => r0.LockName(), run);
      }
    } else {
      TwoLocksExecuteTwice(r0, r1);
    }
  }

  /** Nothing goes wrong. */
  const FINE: Fate := Fate(true, true, "s", None, Some("answer"), SqlFate(true, true, true, true), SaveOk)

  lemma TwoLocksExecuteTwice(r0: Request, r1: Request)
    requires r0.Keyed() && r1.idem == r0.idem && r0.LockName() != r1.LockName()
    ensures !AlwaysSingle(r0, r1)
  {
    var run, p := SharedKeyRunsTwice(r0, FINE, r1, FINE);
    var es := After(run).shared.events;
    assert !Final(es, p, |es| - 1);
    assert OfThese(run, r0, r1);
  }
}
