/**
  When a bucket is subtracted a second time: never while the session row lives, and for
  every bucket in some run that deletes the session under the worker and creates it again.
*/
module SummaryDeletion {
  import opened Wrappers
  import opened RedisModel
  import opened Summarization
  import opened SummaryOrder

  // --------------------------------------------------------- what one attempt does

  /** What an attempt that is turned back leaves: a mark, if a version was there without one, and no lock. */
  ghost function Returned(s: string, st: State, count: int): State {
    var taken := Locked(s, st);
    var bucket := Key.Bucket(s, count / 10);
    var lagging := !st.store.Has(bucket, Status(Processed)) && Latest(st.rows.versions) >= count / 10;
    var marked := if lagging then taken.store.SetEx(bucket, Status(Processed), 604_800_000) else taken.store;
    taken.(store := marked.DeleteIf(SummaryLock(s), Token(st.nextToken)))
  }

  lemma Releases(s: string, st: State, a: Attempt)
    requires a.phase == Releasing && a.token.Some?
    ensures EndsIn(s, st, a, st.(store := st.store.DeleteIf(SummaryLock(s), Token(a.token.value))))
  {
    var end := st.(store := st.store.DeleteIf(SummaryLock(s), Token(a.token.value)));
    DriveOnce(s, st, a, end, a.(phase := Ended));
  }

  /** From the first guard on. */
  lemma GuardTurnsBack(s: string, st: State, a: Attempt)
    requires a.phase == Guarding && a.token.Some?
    requires Latest(st.rows.versions) >= a.Bucket() || st.rows.messages == 0
    ensures var marked := if Latest(st.rows.versions) >= a.Bucket()
                          then st.store.SetEx(Key.Bucket(s, a.Bucket()), Status(Processed), 604_800_000) else st.store;
            EndsIn(s, st, a, st.(store := marked.DeleteIf(SummaryLock(s), Token(a.token.value))))
  {
    if Latest(st.rows.versions) >= a.Bucket() {
      var st' := st.(store := st.store.SetEx(Key.Bucket(s, a.Bucket()), Status(Processed), BUCKET_TTL));
      DriveOnce(s, st, a, st, a.(phase := Syncing));
      DriveOnce(s, st, a.(phase := Syncing), st', a.(phase := Releasing));
      Releases(s, st', a.(phase := Releasing));
    } else {
      DriveOnce(s, st, a, st, a.(phase := Loading));
      DriveOnce(s, st, a.(phase := Loading), st, a.(phase := Releasing));
      Releases(s, st, a.(phase := Releasing));
    }
  }

  /** An attempt that is not due subtracts and writes nothing; it repairs a lagging mark, and leaves no lock. */
  lemma TurnedBack(s: string, st: State, count: int)
    requires !st.store.Live(SummaryLock(s)) && !Due(s, st, count)
    ensures EndsIn(s, st, NewAttempt(count), Returned(s, st, count))
  {
    var st1, a1 := Locked(s, st), AtWriting(st, count).(phase := Rechecking);
    var bucket := Key.Bucket(s, count / 10);
    assert Step(Intended, s, st, NewAttempt(count)) == (st1, a1);
    assert st1.store.Get(bucket) == st.store.Get(bucket);
    if st.store.Has(bucket, Status(Processed)) {
      DriveOnce(s, st1, a1, st1, a1.(phase := Releasing));
      Releases(s, st1, a1.(phase := Releasing));
    } else {
      DriveOnce(s, st1, a1, st1, a1.(phase := Guarding));
      GuardTurnsBack(s, st1, a1.(phase := Guarding));
    }
  }

  /**
    An attempt left alone subtracts exactly when it finds its bucket not marked processed, the
    latest version below it, and messages to summarise; otherwise it subtracts nothing. So a
    retry repeats a subtraction exactly when neither mark nor version of the first is left.
  */
  lemma RetryDebitsIff(s: string, st: State, count: int)
    requires !st.store.Live(SummaryLock(s)) && Referential(st.rows)
    ensures var end := Drive(Intended, s, st, NewAttempt(count)).0;
            end.debits == if Due(s, st, count) then st.debits + [Debit(count / 10, count, st.rows.life, true)]
                else st.debits
  {
    if Due(s, st, count) {
      LatestBounds(st.rows.versions);
      JobAlone(s, st, count);
      ClosedStore(s, st, count);
    } else {
      TurnedBack(s, st, count);
    }
  }

  // ------------------------------------------------------------ a run that does it

  lemma AfterOne(s: string, run: seq<Action>, a: Action)
    ensures After(Intended, s, run + [a]) == Next(Intended, s, After(Intended, s, run), a)
  {
    assert (run + [a])[..|run|] == run;
  }

  function Four(i: nat): seq<Action> {
    [Work(i), Work(i), Work(i), Work(i)]
  }

  /** A session's first n interactions, the last of which claims its bucket. */
  function Counting(n: nat): seq<Action> {
    if n == 0 then [CreateSession, CommitPair] else Counting(n - 1) + [Count1]
  }

  ghost predicate Counted(s: string, w: World, n: nat) {
    && w.attempts == [] && w.st.rows == Rows(true, 2, [], 0) && w.st.debits == [] && w.st.jobs == []
    && |w.st.returned| == n && (n > 0 ==> w.st.returned[n - 1] == n)
    && w.st.store.now == 0 && w.st.store.NumberAt(Count(s)) == n
    && (forall k :: k in w.st.store.data ==> k == Count(s) && w.st.store.data[k].value.Number?)
    && (n > 0 ==> w.st.store.Live(Count(s)))
  }

  lemma CountedMore(s: string, w: World, n: nat)
    requires Counted(s, w, n)
    ensures Counted(s, Next(Intended, s, w, Count1), n + 1)
  {
  }

  lemma CountingStarts(s: string)
    ensures Counted(s, After(Intended, s, [CreateSession, CommitPair]), 0)
  {
    assert [CreateSession] == [] + [CreateSession] && [CreateSession, CommitPair] == [CreateSession] + [CommitPair];
    AfterOne(s, [], CreateSession);
    AfterOne(s, [CreateSession], CommitPair);
    assert After(Intended, s, [CreateSession, CommitPair]) == World(Fresh().(rows := Rows(true, 2, [], 0)), []);
  }

  lemma {:induction false} CountingCounts(s: string, n: nat)
    ensures Counted(s, After(Intended, s, Counting(n)), n)
  {
    if n == 0 {
      CountingStarts(s);
    } else {
      CountingCounts(s, n - 1);
      CountedMore(s, After(Intended, s, Counting(n - 1)), n - 1);
      AfterOne(s, Counting(n - 1), Count1);
      assert Counting(n) == Counting(n - 1) + [Count1];
    }
  }

  /** Four steps take an attempt whose bucket is due to the point of writing. */
  lemma ToWriting(s: string, run: seq<Action>, i: nat, count: int)
    requires var w := After(Intended, s, run);
             && i < |w.attempts| && w.attempts[i] == NewAttempt(count)
             && !w.st.store.Live(SummaryLock(s)) && Due(s, w.st, count)
    ensures var w := After(Intended, s, run);
            After(Intended, s, run + Four(i)) == World(Locked(s, w.st), w.attempts[i := AtWriting(w.st, count)])
  {
    var w := After(Intended, s, run);
    var st1, a := Locked(s, w.st), AtWriting(w.st, count);
    OpeningSteps(s, w.st, count);
    OneMore(s, run, i, w.st, w.attempts, NewAttempt(count));
    var r1 := run + [Work(i)];
    OneMore(s, r1, i, st1, w.attempts, a.(phase := Rechecking));
    var r2 := r1 + [Work(i)];
    OneMore(s, r2, i, st1, w.attempts, a.(phase := Guarding));
    var r3 := r2 + [Work(i)];
    OneMore(s, r3, i, st1, w.attempts, a.(phase := Loading));
    assert run + Four(i) == r3 + [Work(i)];
  }

  lemma OneMore(s: string, run: seq<Action>, i: nat, st: State, attempts: seq<Attempt>, a: Attempt)
    requires i < |attempts| && After(Intended, s, run) == World(st, attempts[i := a])
    ensures After(Intended, s, run + [Work(i)]) == World(Step(Intended, s, st, a).0,
        attempts[i := Step(Intended, s, st, a).1])
  {
    AfterOne(s, run, Work(i));
  }

  /** What a write and a subtraction make of the state. */
  function Subtracted(s: string, st: State, a: Attempt): State {
    st.(store := st.store.AddTo(Count(s), -a.count),
        rows := if st.rows.present then st.rows.(versions := st.rows.versions + [a.Bucket()]) else st.rows,
        debits := st.debits + [Debit(a.Bucket(), a.count, st.rows.life, st.rows.present)])
  }

  lemma TwoSteps(s: string, st: State, a: Attempt)
    requires a.phase == Writing && a.Bucket() !in st.rows.versions
    ensures var (st1, a1) := Step(Intended, s, st, a); Step(Intended, s, st1, a1).0 == Subtracted(s, st, a)
  {
  }

  /** Two more steps take it past its subtraction, with or without a session row to record it in. */
  lemma ToMarking(s: string, run: seq<Action>, i: nat)
    requires var w := After(Intended, s, run);
             && i < |w.attempts| && w.attempts[i].phase == Writing && w.attempts[i].Bucket() !in w.st.rows.versions
    ensures var w, w' := After(Intended, s, run), After(Intended, s, run + [Work(i)] + [Work(i)]);
            w'.st == Subtracted(s, w.st, w.attempts[i]) && |w'.attempts| == |w.attempts|
  {
    AfterOne(s, run, Work(i));
    AfterOne(s, run + [Work(i)], Work(i));
    var w := After(Intended, s, run);
    TwoSteps(s, w.st, w.attempts[i]);
  }

  function Upto(n: nat): seq<Action>
    requires n > 0
  {
    Counting(n) + [ClaimFor(n - 1, true, true)] + [Begin(0)] + Four(0)
  }

  /** The job is about to write its summary. */
  ghost predicate AboutToWrite(s: string, w: World, count: int) {
    && w.st.rows == Rows(true, 2, [], 0) && w.st.debits == [] && w.st.jobs == [count]
    && |w.attempts| == 1 && w.attempts[0].phase == Writing && w.attempts[0].count == count
    && w.st.store.now == 0 && Key.Bucket(s, count / 10) in w.st.store.data
    && w.st.store.data[Key.Bucket(s, count / 10)] == Entry(Status(Enqueued), Some(BUCKET_TTL))
    && SummaryLock(s) in w.st.store.data && w.st.store.data[SummaryLock(s)].expires == Some(SUMMARY_TTL)
  }

  lemma ClaimedAndBegun(s: string, n: nat)
    requires n >= 10
    ensures var w := After(Intended, s, Counting(n) + [ClaimFor(n - 1, true, true)] + [Begin(0)]);
            && w.st.rows == Rows(true, 2, [], 0) && w.st.debits == [] && w.st.jobs == [n]
                && w.attempts == [NewAttempt(n)]
            && w.st.store.now == 0 && SummaryLock(s) !in w.st.store.data && Key.Bucket(s, n / 10) in w.st.store.data
            && w.st.store.data[Key.Bucket(s, n / 10)] == Entry(Status(Enqueued), Some(BUCKET_TTL))
  {
    CountingCounts(s, n);
    AfterOne(s, Counting(n), ClaimFor(n - 1, true, true));
    AfterOne(s, Counting(n) + [ClaimFor(n - 1, true, true)], Begin(0));
  }

  lemma UptoWrites(s: string, n: nat)
    requires n >= 10
    ensures AboutToWrite(s, After(Intended, s, Upto(n)), n)
  {
    ClaimedAndBegun(s, n);
    ToWriting(s, Counting(n) + [ClaimFor(n - 1, true, true)] + [Begin(0)], 0, n);
  }

  function Orphaned(n: nat): seq<Action>
    requires n > 0
  {
    Upto(n) + [DeleteSession] + [Work(0)] + [Work(0)]
  }

  /** It has subtracted without a session row, and dies before its mark. */
  ghost predicate SubtractedUnrecorded(s: string, w: World, count: int) {
    && w.st.rows == Rows(false, 0, [], 1) && w.st.debits == [Debit(count / 10, count, 1, false)]
    && w.st.jobs == [count] && |w.attempts| == 1
    && w.st.store.now == 0 && Key.Bucket(s, count / 10) in w.st.store.data
    && w.st.store.data[Key.Bucket(s, count / 10)] == Entry(Status(Enqueued), Some(BUCKET_TTL))
    && SummaryLock(s) in w.st.store.data && w.st.store.data[SummaryLock(s)].expires == Some(SUMMARY_TTL)
  }

  lemma OrphanSubtracts(s: string, n: nat)
    requires n >= 10
    ensures SubtractedUnrecorded(s, After(Intended, s, Orphaned(n)), n)
  {
    UptoWrites(s, n);
    AfterOne(s, Upto(n), DeleteSession);
    ToMarking(s, Upto(n) + [DeleteSession], 0);
  }

  /** The worker died; its lock runs out, the session is written to again, and the job is retried. */
  function Retried(n: nat): seq<Action>
    requires n > 0
  {
    Orphaned(n) + [Crash(0)] + [Tick(SUMMARY_TTL)] + [CreateSession] + [CommitPair] + [Begin(0)]
  }

  lemma RetryIsDue(s: string, n: nat)
    requires n >= 10
    ensures var w := After(Intended, s, Retried(n));
            && |w.attempts| == 2 && w.attempts[1] == NewAttempt(n)
            && !w.st.store.Live(SummaryLock(s)) && Due(s, w.st, n)
            && w.st.rows == Rows(true, 2, [], 1) && w.st.debits == [Debit(n / 10, n, 1, false)]
  {
    OrphanSubtracts(s, n);
    var r0 := Orphaned(n);
    AfterOne(s, r0, Crash(0));
    AfterOne(s, r0 + [Crash(0)], Tick(SUMMARY_TTL));
    AfterOne(s, r0 + [Crash(0)] + [Tick(SUMMARY_TTL)], CreateSession);
    AfterOne(s, r0 + [Crash(0)] + [Tick(SUMMARY_TTL)] + [CreateSession], CommitPair);
    AfterOne(s, r0 + [Crash(0)] + [Tick(SUMMARY_TTL)] + [CreateSession] + [CommitPair], Begin(0));
  }

  function Twice(n: nat): seq<Action>
    requires n > 0
  {
    Retried(n) + Four(1) + [Work(1)] + [Work(1)]
  }

  /**
    For every count that claims a bucket there is a run that subtracts it twice: the session
    is deleted when the job is about to write, the job dies between its subtraction and its
    mark, the session is created again under the same id, and the job is retried.
  */
  lemma DeletedSessionDebitsTwice(s: string, n: nat)
    requires n >= 10
    ensures After(Intended, s, Twice(n)).st.debits == [Debit(n / 10, n, 1, false), Debit(n / 10, n, 1, true)]
  {
    RetryIsDue(s, n);
    ToWriting(s, Retried(n), 1, n);
    ToMarking(s, Retried(n) + Four(1), 1);
  }

  /** The exact condition: a bucket can be subtracted twice if and only if the session may be deleted. */
  lemma SecondDebitIff(s: string, bucket: int, mayDelete: bool)
    requires bucket >= 1
    ensures (exists run: seq<Action> ::
               (Deletes(run) ==> mayDelete) && DebitedTwice(After(Intended, s, run).st, bucket))
            <==> mayDelete
  {
    if mayDelete {
      var n := 10 * bucket;
      DeletedSessionDebitsTwice(s, n);
      var st := After(Intended, s, Twice(n)).st;
      assert st.debits[0].bucket == bucket && st.debits[1].bucket == bucket;
      assert DebitedTwice(st, bucket);
    } else {
      forall run: seq<Action> | DebitedTwice(After(Intended, s, run).st, bucket)
        ensures Deletes(run)
      {
        TwiceNeedsDeletion(Intended, s, run, bucket);
      }
    }
  }
}
