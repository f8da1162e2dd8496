/**
  The summarisation buckets of one chat session: interactions count up and claim a bucket
  of ten, a worker job takes the summary lock, re-checks the bucket twice, writes a version,
  subtracts what it summarised and marks the bucket. Attempts may raise or crash anywhere
  and may be retried any number of times.
*/
module Summarization {
  import opened Wrappers
  import opened RedisModel

  const SUMMARY_TTL: nat := 120 * SECOND
  const COUNT_TTL: nat := 86400 * SECOND
  const BUCKET_TTL: nat := 7 * 86400 * SECOND

  /**
    The worker as written calls a builder with one argument missing and logs through an
    undefined name; both raise. `Intended` is the same code with those two repaired.
  */
  datatype Code = AsWritten | Intended

  datatype Phase =
    | Starting
    | Rechecking
    | Guarding
    | Syncing
    | Loading
    | Writing
    | Debiting
    | Marking
    | Releasing
    | Ended
    | Crashed

  /**
    `life` and `recorded` are fixed when the attempt writes: the session row's life then, and
    whether it stored a version.
  */
  datatype Attempt = Attempt(count: int, phase: Phase, token: Option<nat>, acquiredAt: nat, life: nat, recorded: bool) {
    function Bucket(): int { count / 10 }

    predicate Holding() {
      phase != Starting && phase != Ended && phase != Crashed
    }
  }

  function NewAttempt(count: int): Attempt {
    Attempt(count, Starting, None, 0, 0, false)
  }

  /** A subtraction, with the life of the session row it was earned in, and whether a version stands for it. */
  datatype Debit = Debit(bucket: int, amount: int, life: nat, recorded: bool)

  /** The session's SQL rows: deleting the session row takes its messages and summaries along. */
  datatype Rows = Rows(present: bool, messages: nat, versions: seq<int>, life: nat) {
    function Delete(): Rows {
      if present then Rows(false, 0, [], life + 1) else this
    }

    function Create(): Rows {
      this.(present := true)
    }

    /** One interaction's message pair; without the session row the insert is refused. */
    function Commit(): Rows {
      if present then this.(messages := messages + 2) else this
    }
  }

  datatype State = State(
    store: Store,
    nextToken: nat,
    rows: Rows,           // versions are in write order; `life` counts the deletions
    debits: seq<Debit>,   // the subtractions made so far
    increments: nat,
    returned: seq<int>,   // what the increments returned
    jobs: seq<int>)       // the counts enqueued

  function Fresh(): State {
    State(Store(0, map[]), 0, Rows(false, 0, [], 0), [], 0, [], [])
  }

  // ----------------------------------------------------------- the interaction's side

  /** INCR, then EXPIRE. */
  function Increment(s: string, st: State): State {
    var n := st.store.NumberAt(Count(s)) + 1;
    st.(store := st.store.AddTo(Count(s), 1).Expire(Count(s), COUNT_TTL),
        increments := st.increments + 1, returned := st.returned + [n])
  }

  /** Claims the bucket of the count `n` with SETNX and, if won, enqueues a job for it. */
  function Claim(s: string, st: State, n: int, pool: bool, enqueues: bool): State {
    if n / 10 > 0 && pool && !st.store.Live(Key.Bucket(s, n / 10)) then
      st.(store := st.store.SetNx(Key.Bucket(s, n / 10), Status(Enqueued), BUCKET_TTL),
          jobs := if enqueues then st.jobs + [n] else st.jobs)
    else st
  }

  // ----------------------------------------------------------------- the worker's side

  /** `max(version)`, or 0 when there is none. */
  function Latest(versions: seq<int>): int {
    if versions == [] then 0
    else
      var rest, v := Latest(versions[..|versions| - 1]), versions[|versions| - 1];
      if |versions| == 1 || v > rest then v else rest
  }

  function Step(code: Code, s: string, st: State, a: Attempt): (State, Attempt) {
    match a.phase
    case Starting =>
      var st' := st.(store := st.store.SetNx(SummaryLock(s), Token(st.nextToken), SUMMARY_TTL),
          nextToken := st.nextToken + 1);
      if st.store.Live(SummaryLock(s)) then (st', a.(phase := Ended))
      else (st', a.(phase := Rechecking, token := Some(st.nextToken), acquiredAt := st.store.now))
    case Rechecking =>
      (st, a.(phase := if st.store.Get(Key.Bucket(s, a.Bucket())) == Some(Status(Processed)) then Releasing
          else Guarding))
    case Guarding =>
      (st, a.(phase := if Latest(st.rows.versions) < a.Bucket() then Loading
                       else if code == AsWritten then Releasing else Syncing))
    case Syncing =>
      (st.(store := st.store.SetEx(Key.Bucket(s, a.Bucket()), Status(Processed), BUCKET_TTL)), a.(phase := Releasing))
    case Loading =>
      (st, a.(phase := if code == AsWritten || st.rows.messages == 0 then Releasing else Writing))
    case Writing =>
      // the unique constraint on (session, version) refuses a second row; a missing session is a silent no-op
      if !st.rows.present then (st, a.(phase := Debiting, life := st.rows.life, recorded := false))
      else if a.Bucket() in st.rows.versions then (st, a.(phase := Releasing))
      else (st.(rows := st.rows.(versions := st.rows.versions + [a.Bucket()])),
            a.(phase := Debiting, life := st.rows.life, recorded := true))
    case Debiting =>
      (st.(store := st.store.AddTo(Count(s), -a.count),
           debits := st.debits + [Debit(a.Bucket(), a.count, a.life, a.recorded)]),
       a.(phase := Marking))
    case Marking =>
      (st.(store := st.store.SetEx(Key.Bucket(s, a.Bucket()), Status(Processed), BUCKET_TTL)), a.(phase := Releasing))
    case Releasing =>
      if a.token.Some? then
        (st.(store := st.store.DeleteIf(SummaryLock(s), Token(a.token.value))), a.(phase := Ended))
      else (st, a)
    case _ => (st, a)
  }

  // ------------------------------------------------------------------- every run

  datatype World = World(st: State, attempts: seq<Attempt>)

  datatype Action =
    | Tick(ms: nat)
    | Count1                                          // one interaction's INCR
    | ClaimFor(i: nat, pool: bool, enqueues: bool)    // its bucket claim, any time later
    | CreateSession
    | CommitPair                                      // an interaction's rows, written before it is counted
    | DeleteSession
    | Begin(job: nat)                                 // ARQ starts or retries a job
    | Work(i: nat)
    | Raise(i: nat)                                   // an exception: `finally` still runs
    | Crash(i: nat)                                   // the worker dies: nothing runs

  function Next(code: Code, s: string, w: World, a: Action): World {
    match a
    case Tick(ms) => w.(st := w.st.(store := w.st.store.Advance(ms)))
    case Count1 => w.(st := Increment(s, w.st))
    case ClaimFor(i, pool, enqueues) =>
      if i < |w.st.returned| then w.(st := Claim(s, w.st, w.st.returned[i], pool, enqueues)) else w
    case CreateSession => w.(st := w.st.(rows := w.st.rows.Create()))
    case CommitPair => w.(st := w.st.(rows := w.st.rows.Commit()))
    case DeleteSession => w.(st := w.st.(rows := w.st.rows.Delete()))
    case Begin(job) =>
      if job < |w.st.jobs| then w.(attempts := w.attempts + [NewAttempt(w.st.jobs[job])]) else w
    case Work(i) =>
      if i < |w.attempts| then
        var (st, t) := Step(code, s, w.st, w.attempts[i]);
        World(st, w.attempts[i := t])
      else w
    case Raise(i) =>
      if i < |w.attempts| && w.attempts[i].Holding()
          then w.(attempts := w.attempts[i := w.attempts[i].(phase := Releasing)]) else w
    case Crash(i) =>
      if i < |w.attempts| then w.(attempts := w.attempts[i := w.attempts[i].(phase := Crashed)]) else w
  }

  function After(code: Code, s: string, run: seq<Action>): World {
    if run == [] then World(Fresh(), [])
    else Next(code, s, After(code, s, run[..|run| - 1]), run[|run| - 1])
  }

  // ------------------------------------------- what needs no assumption on time

  function Total(debits: seq<Debit>): int {
    if debits == [] then 0 else Total(debits[..|debits| - 1]) + debits[|debits| - 1].amount
  }

  /** The counter key, read without regard to expiry, is increments minus debits. */
  ghost predicate Counted(s: string, st: State) {
    if Count(s) in st.store.data then
      st.store.data[Count(s)].value == Number(st.increments - Total(st.debits))
    else st.increments == 0 && st.debits == []
  }

  ghost predicate CountAlive(s: string, st: State) {
    Count(s) in st.store.data ==> st.store.Live(Count(s))
  }

  lemma TotalSnoc(debits: seq<Debit>, d: Debit)
    ensures Total(debits + [d]) == Total(debits) + d.amount
  {
    assert (debits + [d])[..|debits|] == debits;
  }

  lemma CountedWork(code: Code, s: string, st: State, a: Attempt)
    requires Counted(s, st) && CountAlive(s, st)
    ensures Counted(s, Step(code, s, st, a).0)
  {
    var st' := Step(code, s, st, a).0;
    if a.phase == Debiting {
      TotalSnoc(st.debits, Debit(a.Bucket(), a.count, a.life, a.recorded));
    } else {
      assert st'.debits == st.debits && st'.increments == st.increments;
    }
  }

  lemma CountedStep(code: Code, s: string, w: World, a: Action)
    requires Counted(s, w.st) && CountAlive(s, w.st)
    ensures Counted(s, Next(code, s, w, a).st)
  {
    if a.Work? && a.i < |w.attempts| {
      CountedWork(code, s, w.st, w.attempts[a.i]);
    } else if a.ClaimFor? && a.i < |w.st.returned| {
      var st' := Claim(s, w.st, w.st.returned[a.i], a.pool, a.enqueues);
      assert Count(s) in st'.store.data <==> Count(s) in w.st.store.data;
    }
  }

  /**
    Conservation. As long as the counter key never expires, at every point of every run,
    with any crashes and retries, it holds the interactions counted minus the amounts subtracted.
  */
  lemma {:induction false} CounterConserved(code: Code, s: string, run: seq<Action>)
    requires forall n :: 0 <= n <= |run| ==> CountAlive(s, After(code, s, run[..n]).st)
    ensures Counted(s, After(code, s, run).st)
    ensures After(code, s, run).st.store.NumberAt(Count(s))
            == After(code, s, run).st.increments - Total(After(code, s, run).st.debits)
  {
    assert run[..|run|] == run;
    if run != [] {
      var head := run[..|run| - 1];
      forall n | 0 <= n <= |head|
        ensures CountAlive(s, After(code, s, head[..n]).st)
      {
        assert head[..n] == run[..n];
      }
      CounterConserved(code, s, head);
      assert run[..|run| - 1] == head;
      CountedStep(code, s, After(code, s, head), run[|run| - 1]);
    }
  }

  /** The foreign keys: without the session row there are no messages and no summaries. */
  ghost predicate Referential(r: Rows) {
    !r.present ==> r.messages == 0 && r.versions == []
  }

  ghost predicate DistinctVersions(versions: seq<int>) {
    forall p, q :: 0 <= p < q < |versions| ==> versions[p] != versions[q]
  }

  /** A subtraction made or due that a version of the present life stands for, or that a deletion excuses. */
  ghost predicate Earned(r: Rows, bucket: int, life: nat, recorded: bool) {
    && life <= r.life
    && (recorded && life == r.life ==> bucket in r.versions)
    && (!recorded ==> life >= 1)
  }

  /** Versions are distinct, and in one life of the session row each version pays for one subtraction. */
  ghost predicate Accounted(w: World) {
    && Referential(w.st.rows) && DistinctVersions(w.st.rows.versions)
    && (forall p :: 0 <= p < |w.st.debits| ==>
          var d := w.st.debits[p];
          d.bucket == d.amount / 10 && Earned(w.st.rows, d.bucket, d.life, d.recorded))
    && (forall p, q :: 0 <= p < q < |w.st.debits| && w.st.debits[p].recorded && w.st.debits[q].recorded
                       && w.st.debits[p].life == w.st.debits[q].life ==>
          w.st.debits[p].bucket != w.st.debits[q].bucket)
    && (forall i :: 0 <= i < |w.attempts| && w.attempts[i].phase == Writing ==>
          w.st.rows.present || w.st.rows.life >= 1)
    && (forall i :: 0 <= i < |w.attempts| && w.attempts[i].phase == Debiting ==>
          Earned(w.st.rows, w.attempts[i].Bucket(), w.attempts[i].life, w.attempts[i].recorded))
    && (forall i, p :: 0 <= i < |w.attempts| && w.attempts[i].phase == Debiting && w.attempts[i].recorded
                       && 0 <= p < |w.st.debits| && w.st.debits[p].recorded
                           && w.st.debits[p].life == w.attempts[i].life ==>
          w.st.debits[p].bucket != w.attempts[i].Bucket())
    && (forall i, j :: 0 <= i < j < |w.attempts| && w.attempts[i].phase == Debiting && w.attempts[j].phase == Debiting
                       && w.attempts[i].recorded && w.attempts[j].recorded
                           && w.attempts[i].life == w.attempts[j].life ==>
          w.attempts[i].Bucket() != w.attempts[j].Bucket())
  }

  lemma AccountedStep(code: Code, s: string, w: World, a: Action)
    requires Accounted(w)
    ensures Accounted(Next(code, s, w, a))
  {
    match a {
      case Work(i) =>
        if i < |w.attempts| {
          AccountedWork(code, s, w, i);
        }
      case DeleteSession => AccountedDelete(w, w.st.rows.Delete());
      case _ =>
        OtherIsIdle(code, s, w, a);
        AccountedIdle(w, Next(code, s, w, a));
    }
  }

  /** Nothing written or subtracted; writing and subtracting attempts are still where they were. */
  ghost predicate Idle(w: World, w': World) {
    && w'.st.debits == w.st.debits && w'.st.rows.life == w.st.rows.life
    && w'.st.rows.versions == w.st.rows.versions && Referential(w'.st.rows)
    && (w.st.rows.present ==> w'.st.rows.present)
    && |w.attempts| <= |w'.attempts|
    && (forall i :: 0 <= i < |w'.attempts| && w'.attempts[i].phase in {Writing, Debiting} ==>
          i < |w.attempts| && w'.attempts[i] == w.attempts[i])
  }

  lemma OtherIsIdle(code: Code, s: string, w: World, a: Action)
    requires Referential(w.st.rows) && !a.Work? && !a.DeleteSession?
    ensures Idle(w, Next(code, s, w, a))
  {
  }

  lemma AccountedIdle(w: World, w': World)
    requires Accounted(w) && Idle(w, w')
    ensures Accounted(w')
  {
  }

  /** A deletion starts a new life, in which nothing has been earned yet. */
  lemma AccountedDelete(w: World, rows: Rows)
    requires Accounted(w) && rows == w.st.rows.Delete()
    ensures Accounted(w.(st := w.st.(rows := rows)))
  {
  }

  lemma AccountedWork(code: Code, s: string, w: World, i: nat)
    requires Accounted(w) && i < |w.attempts|
    ensures Accounted(Next(code, s, w, Work(i)))
  {
    if w.attempts[i].phase == Writing {
      AccountedWrite(code, s, w, i);
    } else if w.attempts[i].phase == Debiting {
      AccountedDebit(code, s, w, i);
    } else {
      var (st', t') := Step(code, s, w.st, w.attempts[i]);
      assert st'.rows == w.st.rows && st'.debits == w.st.debits && t'.phase != Debiting;
      assert t'.phase == Writing ==> w.st.rows.present;
    }
  }

  lemma AccountedWrite(code: Code, s: string, w: World, i: nat)
    requires Accounted(w) && i < |w.attempts| && w.attempts[i].phase == Writing
    ensures Accounted(Next(code, s, w, Work(i)))
  {
    if !w.st.rows.present {
      AccountedUnrecorded(w, i);
    } else if w.attempts[i].Bucket() in w.st.rows.versions {
      AccountedIdle(w, Next(code, s, w, Work(i)));
    } else {
      AccountedRecorded(w, i);
    }
  }

  /** Earned without a row to record it in. */
  lemma AccountedUnrecorded(w: World, i: nat)
    requires Accounted(w) && i < |w.attempts| && w.attempts[i].phase == Writing && !w.st.rows.present
    ensures Accounted(w.(attempts := w.attempts[i := w.attempts[i].(phase := Debiting, life := w.st.rows.life,
        recorded := false)]))
  {
  }

  /** Earned with a version of its own. */
  lemma AccountedRecorded(w: World, i: nat)
    requires Accounted(w) && i < |w.attempts| && w.attempts[i].phase == Writing
    requires w.st.rows.present && w.attempts[i].Bucket() !in w.st.rows.versions
    ensures Accounted(World(w.st.(rows := w.st.rows.(versions := w.st.rows.versions + [w.attempts[i].Bucket()])),
                            w.attempts[i := w.attempts[i].(phase := Debiting, life := w.st.rows.life,
                                recorded := true)]))
  {
  }

  lemma AccountedDebit(code: Code, s: string, w: World, i: nat)
    requires Accounted(w) && i < |w.attempts| && w.attempts[i].phase == Debiting
    ensures Accounted(Next(code, s, w, Work(i)))
  {
    var w' := Next(code, s, w, Work(i));
    assert w'.st.rows == w.st.rows;
    assert forall j :: 0 <= j < |w.attempts| && j != i ==> w'.attempts[j] == w.attempts[j];
  }

  lemma {:induction false} AccountedRun(code: Code, s: string, run: seq<Action>)
    ensures Accounted(After(code, s, run))
  {
    if run != [] {
      AccountedRun(code, s, run[..|run| - 1]);
      AccountedStep(code, s, After(code, s, run[..|run| - 1]), run[|run| - 1]);
    }
  }

  /**
    With any interleaving, crashes, retries, deletions and even expired locks: two
    subtractions of one bucket that both stored their version were earned in different lives
    of the session row, and one that stored none was earned after a deletion.
  */
  lemma AtMostOneDebitPerBucket(code: Code, s: string, run: seq<Action>, p: nat, q: nat)
    requires p < q < |After(code, s, run).st.debits|
    ensures var d, e := After(code, s, run).st.debits[p], After(code, s, run).st.debits[q];
            d.bucket == e.bucket ==>
              (d.recorded && e.recorded && d.life != e.life) || (!d.recorded && d.life >= 1)
                  || (!e.recorded && e.life >= 1)
  {
    AccountedRun(code, s, run);
  }

  ghost predicate Deletes(run: seq<Action>) {
    exists n :: 0 <= n < |run| && run[n].DeleteSession?
  }

  lemma {:induction false} LifeCountsDeletions(code: Code, s: string, run: seq<Action>)
    requires !Deletes(run)
    ensures After(code, s, run).st.rows.life == 0
  {
    if run != [] {
      var head, a := run[..|run| - 1], run[|run| - 1];
      assert forall n :: 0 <= n < |head| ==> head[n] == run[n];
      assert !a.DeleteSession?;
      LifeCountsDeletions(code, s, head);
      StepKeepsLife(code, s, After(code, s, head), a);
    }
  }

  lemma StepKeepsLife(code: Code, s: string, w: World, a: Action)
    requires !a.DeleteSession?
    ensures Next(code, s, w, a).st.rows.life == w.st.rows.life
  {
  }

  ghost predicate DebitedTwice(st: State, bucket: int) {
    exists p, q :: 0 <= p < q < |st.debits| && st.debits[p].bucket == bucket && st.debits[q].bucket == bucket
  }

  /** Without a deletion no bucket is ever subtracted twice. */
  lemma TwiceNeedsDeletion(code: Code, s: string, run: seq<Action>, bucket: int)
    requires DebitedTwice(After(code, s, run).st, bucket)
    ensures Deletes(run)
  {
    var st := After(code, s, run).st;
    var p, q :| 0 <= p < q < |st.debits| && st.debits[p].bucket == bucket && st.debits[q].bucket == bucket;
    AccountedRun(code, s, run);
    if !Deletes(run) {
      LifeCountsDeletions(code, s, run);
    }
  }

  // --------------------------------------------------------- the worker as written

  ghost predicate NothingDone(w: World) {
    && w.st.rows.versions == [] && w.st.debits == []
    && (forall i :: 0 <= i < |w.attempts| ==> w.attempts[i].phase !in {Writing, Debiting, Marking, Syncing})
  }

  lemma NothingDoneStep(s: string, w: World, a: Action)
    requires NothingDone(w)
    ensures NothingDone(Next(AsWritten, s, w, a))
  {
    if a.Work? && a.i < |w.attempts| {
      var (st', t') := Step(AsWritten, s, w.st, w.attempts[a.i]);
      assert st'.rows.versions == [] && st'.debits == [] && t'.phase !in {Writing, Debiting, Marking, Syncing};
    }
  }

  /** As written, the worker never gets past its builder: nothing is summarised or subtracted, ever. */
  lemma {:induction false} AsWrittenNeverSummarises(s: string, run: seq<Action>)
    ensures NothingDone(After(AsWritten, s, run))
  {
    if run != [] {
      AsWrittenNeverSummarises(s, run[..|run| - 1]);
      NothingDoneStep(s, After(AsWritten, s, run[..|run| - 1]), run[|run| - 1]);
    }
  }
}
