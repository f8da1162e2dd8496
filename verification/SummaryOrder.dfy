/**
  Versions are written in increasing order while no summary lock expires under its holder;
  and, run job by job, the n-th interaction's bucket arithmetic gives summaries after
  10, 30, 60, 100, ... interactions rather than after every ten.
*/
module SummaryOrder {
  import opened Wrappers
  import opened RedisLock
  import opened RedisModel
  import opened Summarization

  // --------------------------------------------------- increasing version numbers

  /** No attempt still between acquire and release has outlived its lock. */
  ghost predicate Timely(w: World) {
    forall i :: 0 <= i < |w.attempts| && w.attempts[i].Holding() ==>
      w.st.store.now < w.attempts[i].acquiredAt + 120 * SECOND
  }

  ghost predicate TimelyRun(code: Code, s: string, run: seq<Action>) {
    forall n :: 0 <= n <= |run| ==> Timely(After(code, s, run[..n]))
  }

  ghost predicate Tokens(w: World) {
    && (forall i :: 0 <= i < |w.attempts| ==>
          && (w.attempts[i].Holding() ==> w.attempts[i].token.Some?)
          && (w.attempts[i].token.Some? ==> w.attempts[i].token.value < w.st.nextToken)
          && (w.attempts[i].phase == Starting ==> w.attempts[i].token.None?))
    && (forall i, j :: 0 <= i < j < |w.attempts| && w.attempts[i].token.Some? ==>
          w.attempts[i].token != w.attempts[j].token)
  }

  ghost predicate EntryOf(s: string, st: Store, a: Attempt) {
    Entered(st, SummaryLock(s), a.token, a.acquiredAt, SUMMARY_TTL)
  }

  ghost predicate Exclusive(s: string, w: World) {
    forall i :: 0 <= i < |w.attempts| && w.attempts[i].Holding() ==> EntryOf(s, w.st.store, w.attempts[i])
  }

  ghost predicate Increasing(versions: seq<int>) {
    forall p, q :: 0 <= p < q < |versions| ==> versions[p] < versions[q]
  }

  /** An attempt past its database guard still has a bucket above every version. */
  ghost predicate Ordered(w: World) {
    && Increasing(w.st.rows.versions)
    && (forall i, p :: 0 <= i < |w.attempts| && w.attempts[i].phase in {Loading, Writing}
                       && 0 <= p < |w.st.rows.versions| ==>
          w.st.rows.versions[p] < w.attempts[i].Bucket())
  }

  ghost predicate Good(s: string, w: World) {
    Tokens(w) && Exclusive(s, w) && Ordered(w)
  }

  lemma OneHolder(s: string, w: World, i: nat, j: nat)
    requires Tokens(w) && Exclusive(s, w)
    requires i < |w.attempts| && j < |w.attempts| && w.attempts[i].Holding() && w.attempts[j].Holding()
    ensures i == j
  {
    assert EntryOf(s, w.st.store, w.attempts[i]) && EntryOf(s, w.st.store, w.attempts[j]);
    assert !(i < j) && !(j < i);
  }

  lemma {:induction false} LatestBounds(versions: seq<int>)
    ensures forall p :: 0 <= p < |versions| ==> versions[p] <= Latest(versions)
    ensures versions != [] ==> Latest(versions) in versions
  {
    if |versions| > 1 {
      LatestBounds(versions[..|versions| - 1]);
    }
  }

  /** A step keeps its attempt's token, or draws a fresh one on entering. */
  lemma StepToken(code: Code, s: string, st: State, a: Attempt)
    ensures var (st', a') := Step(code, s, st, a);
            && st'.nextToken >= st.nextToken && (a'.Holding() && a.phase != Starting ==> a.Holding())
            && (a'.token == a.token || (a.phase == Starting && a'.token == Some(st.nextToken)
                && st'.nextToken == st.nextToken + 1))
            && (a'.phase == Starting ==> a.phase == Starting)
            && (a.phase == Starting && a'.Holding() ==> a'.token.Some?)
  {
  }

  lemma TokensStep(code: Code, s: string, w: World, a: Action)
    requires Tokens(w)
    ensures Tokens(Next(code, s, w, a))
  {
    if a.Work? && a.i < |w.attempts| {
      StepToken(code, s, w.st, w.attempts[a.i]);
    }
  }

  /** Only entering and releasing touch the lock's entry. */
  lemma StepLock(code: Code, s: string, st: State, a: Attempt)
    ensures var (st', a') := Step(code, s, st, a);
            && st'.store.now == st.store.now
            && (a.phase != Starting && a.phase != Releasing ==> SameLock(s, st.store, st'.store))
            && (a.phase == Starting && !a'.Holding() ==> st'.store == st.store)
            && (a.phase == Starting && a'.Holding() ==> !st.store.Live(SummaryLock(s)) && EntryOf(s, st'.store, a'))
            && (a.phase != Starting ==> a'.acquiredAt == a.acquiredAt)
            && (a.phase == Releasing ==> !a'.Holding() || a' == a)
  {
  }

  predicate SameLock(s: string, st: Store, st': Store) {
    && (SummaryLock(s) in st'.data <==> SummaryLock(s) in st.data)
    && (SummaryLock(s) in st.data ==> st'.data[SummaryLock(s)] == st.data[SummaryLock(s)])
  }

  lemma ExclusiveWork(code: Code, s: string, w: World, i: nat)
    requires Good(s, w) && Timely(w) && i < |w.attempts|
    ensures Exclusive(s, Next(code, s, w, Work(i)))
  {
    StepToken(code, s, w.st, w.attempts[i]);
    StepLock(code, s, w.st, w.attempts[i]);
    if w.attempts[i].Holding() {
      forall j | 0 <= j < |w.attempts| && w.attempts[j].Holding() ensures j == i {
        OneHolder(s, w, i, j);
      }
    }
  }

  lemma ExclusiveStep(code: Code, s: string, w: World, a: Action)
    requires Good(s, w) && Timely(w)
    ensures Exclusive(s, Next(code, s, w, a))
  {
    match a {
      case Work(i) =>
        if i < |w.attempts| {
          ExclusiveWork(code, s, w, i);
        }
      case _ =>
        var w' := Next(code, s, w, a);
        assert SameLock(s, w.st.store, w'.st.store);
    }
  }

  lemma OrderedStep(code: Code, s: string, w: World, a: Action)
    requires Good(s, w)
    ensures Ordered(Next(code, s, w, a))
  {
    match a {
      case Work(i) =>
        if i < |w.attempts| {
          OrderedWork(code, s, w, i);
        }
      case _ =>
    }
  }

  lemma OrderedWork(code: Code, s: string, w: World, i: nat)
    requires Good(s, w) && i < |w.attempts|
    ensures Ordered(Next(code, s, w, Work(i)))
  {
    LatestBounds(w.st.rows.versions);
    if w.attempts[i].phase == Writing {
      forall j | 0 <= j < |w.attempts| && w.attempts[j].Holding()
        ensures j == i
      {
        OneHolder(s, w, i, j);
      }
    } else {
      assert Step(code, s, w.st, w.attempts[i]).0.rows.versions == w.st.rows.versions;
    }
  }

  lemma {:induction false} GoodRun(code: Code, s: string, run: seq<Action>)
    requires TimelyRun(code, s, run)
    ensures Good(s, After(code, s, run))
  {
    if run != [] {
      var head := run[..|run| - 1];
      forall n | 0 <= n <= |head|
        ensures Timely(After(code, s, head[..n]))
      {
        assert head[..n] == run[..n];
      }
      assert head[..|head|] == head;
      GoodRun(code, s, head);
      TokensStep(code, s, After(code, s, head), run[|run| - 1]);
      ExclusiveStep(code, s, After(code, s, head), run[|run| - 1]);
      OrderedStep(code, s, After(code, s, head), run[|run| - 1]);
    }
  }

  /** Under any crashes and retries, the session's versions increase strictly in write order. */
  lemma VersionsIncrease(code: Code, s: string, run: seq<Action>)
    requires TimelyRun(code, s, run)
    ensures Increasing(After(code, s, run).st.rows.versions)
  {
    GoodRun(code, s, run);
  }

  // ------------------------------------------------------- one job after the other

  function Work0(a: Attempt): nat {
    match a.phase
    case Starting => 9
    case Rechecking => 8
    case Guarding => 7
    case Loading => 6
    case Writing => 5
    case Debiting => 4
    case Marking => 3
    case Syncing => 3
    case Releasing => 2
    case _ => 0
  }

  /** An attempt run alone to its end. */
  function Drive(code: Code, s: string, st: State, a: Attempt): (State, Attempt)
    decreases Work0(a)
  {
    if a.phase == Ended || a.phase == Crashed || (a.phase == Releasing && a.token.None?) then (st, a)
    else
      var (st', a') := Step(code, s, st, a);
      Drive(code, s, st', a')
  }

  /** Running on from either point ends in the same state. */
  ghost predicate SameEnd(code: Code, s: string, st: State, a: Attempt, st': State, a': Attempt) {
    Drive(code, s, st, a) == Drive(code, s, st', a')
  }

  /** Run to its end, the attempt leaves this state. */
  ghost predicate EndsIn(s: string, st: State, a: Attempt, end: State) {
    Drive(Intended, s, st, a).0 == end
  }

  lemma EndsAfter(s: string, st: State, a: Attempt, st': State, a': Attempt, end: State)
    requires SameEnd(Intended, s, st, a, st', a') && EndsIn(s, st', a', end)
    ensures EndsIn(s, st, a, end)
  {
  }

  lemma DriveOnce(s: string, st: State, a: Attempt, st': State, a': Attempt)
    requires a.phase != Ended && a.phase != Crashed && a.token.Some?
    requires Step(Intended, s, st, a) == (st', a')
    ensures Drive(Intended, s, st, a) == Drive(Intended, s, st', a')
  {
  }

  lemma DriveFour(s: string, st: State, a: Attempt, st1: State, a1: Attempt, st2: State, a2: Attempt,
                  st3: State, a3: Attempt, st4: State, a4: Attempt)
    requires a.token.Some? && a1.token.Some? && a2.token.Some? && a3.token.Some?
    requires a.phase == Writing && a1.phase == Debiting && a2.phase == Marking && a3.phase == Releasing
        && a4.phase == Ended
    requires Step(Intended, s, st, a) == (st1, a1) && Step(Intended, s, st1, a1) == (st2, a2)
    requires Step(Intended, s, st2, a2) == (st3, a3) && Step(Intended, s, st3, a3) == (st4, a4)
    ensures Drive(Intended, s, st, a) == (st4, a4)
  {
    DriveOnce(s, st3, a3, st4, a4);
    DriveOnce(s, st2, a2, st3, a3);
    DriveOnce(s, st1, a1, st2, a2);
    DriveOnce(s, st, a, st1, a1);
  }

  /** The state once the job holds its lock, and the job when it comes to write. */
  function Locked(s: string, st: State): State {
    st.(store := st.store.SetEx(SummaryLock(s), Token(st.nextToken), SUMMARY_TTL), nextToken := st.nextToken + 1)
  }

  function AtWriting(st: State, count: int): Attempt {
    Attempt(count, Writing, Some(st.nextToken), st.store.now, 0, false)
  }

  /** Written, subtracted, marked and released. */
  function Closed(s: string, st: State, a: Attempt): State
    requires a.token.Some?
  {
    st.(store := st.store.AddTo(Count(s), -a.count)
                 .SetEx(Key.Bucket(s, a.Bucket()), Status(Processed), BUCKET_TTL)
                 .DeleteIf(SummaryLock(s), Token(a.token.value)),
        rows := st.rows.(versions := st.rows.versions + [a.Bucket()]),
        debits := st.debits + [Debit(a.Bucket(), a.count, st.rows.life, true)])
  }

  /** What an attempt needs to find, besides a free lock, to come to its write. */
  predicate Due(s: string, st: State, count: int) {
    && !st.store.Has(Key.Bucket(s, count / 10), Status(Processed))
    && Latest(st.rows.versions) < count / 10 && st.rows.messages > 0
  }

  lemma OpeningSteps(s: string, st: State, count: int)
    requires !st.store.Live(SummaryLock(s)) && Due(s, st, count)
    ensures var st1, a := Locked(s, st), AtWriting(st, count);
            && Step(Intended, s, st, NewAttempt(count)) == (st1, a.(phase := Rechecking))
            && Step(Intended, s, st1, a.(phase := Rechecking)) == (st1, a.(phase := Guarding))
            && Step(Intended, s, st1, a.(phase := Guarding)) == (st1, a.(phase := Loading))
            && Step(Intended, s, st1, a.(phase := Loading)) == (st1, a)
  {
    assert Locked(s, st).store.Get(Key.Bucket(s, count / 10)) == st.store.Get(Key.Bucket(s, count / 10));
  }

  lemma JobOpening(s: string, st: State, count: int)
    requires !st.store.Live(SummaryLock(s)) && Due(s, st, count)
    ensures SameEnd(Intended, s, st, NewAttempt(count), Locked(s, st), AtWriting(st, count))
  {
    OpeningSteps(s, st, count);
    var st1, a := Locked(s, st), AtWriting(st, count);
    DriveOnce(s, st1, a.(phase := Loading), st1, a);
    DriveOnce(s, st1, a.(phase := Guarding), st1, a.(phase := Loading));
    DriveOnce(s, st1, a.(phase := Rechecking), st1, a.(phase := Guarding));
  }

  lemma JobClosing(s: string, st: State, a: Attempt)
    requires a.phase == Writing && a.token.Some? && st.rows.present && a.Bucket() !in st.rows.versions
    ensures EndsIn(s, st, a, Closed(s, st, a))
  {
    var st1 := st.(rows := st.rows.(versions := st.rows.versions + [a.Bucket()]));
    var a1 := a.(phase := Debiting, life := st.rows.life, recorded := true);
    var st2 := st1.(store := st1.store.AddTo(Count(s), -a.count),
                    debits := st1.debits + [Debit(a.Bucket(), a.count, st.rows.life, true)]);
    var st3 := st2.(store := st2.store.SetEx(Key.Bucket(s, a.Bucket()), Status(Processed), BUCKET_TTL));
    var st4 := st3.(store := st3.store.DeleteIf(SummaryLock(s), Token(a.token.value)));
    assert Step(Intended, s, st, a) == (st1, a1);
    assert Step(Intended, s, st1, a1) == (st2, a1.(phase := Marking));
    assert Step(Intended, s, st2, a1.(phase := Marking)) == (st3, a1.(phase := Releasing));
    assert Step(Intended, s, st3, a1.(phase := Releasing)) == (st4, a1.(phase := Ended));
    DriveFour(s, st, a, st1, a1, st2, a1.(phase := Marking), st3, a1.(phase := Releasing), st4, a1.(phase := Ended));
  }

  /** What an undisturbed job does: one version, one subtraction, one mark, and no lock left. */
  lemma JobAlone(s: string, st: State, count: int)
    requires !st.store.Live(SummaryLock(s)) && Due(s, st, count)
    requires st.rows.present && count / 10 !in st.rows.versions
    ensures EndsIn(s, st, NewAttempt(count), Closed(s, Locked(s, st), AtWriting(st, count)))
  {
    JobOpening(s, st, count);
    JobClosing(s, Locked(s, st), AtWriting(st, count));
    EndsAfter(s, st, NewAttempt(count), Locked(s, st), AtWriting(st, count),
              Closed(s, Locked(s, st), AtWriting(st, count)));
  }

  lemma ClosedStore(s: string, st: State, count: int)
    ensures var end := Closed(s, Locked(s, st), AtWriting(st, count));
            && end.store == Debited(s, st.store, st.nextToken, count)
            && end.rows == st.rows.(versions := st.rows.versions + [count / 10])
            && end.debits == st.debits + [Debit(count / 10, count, st.rows.life, true)]
  {
  }

  function Debited(s: string, store: Store, token: nat, count: int): Store {
    store.SetEx(SummaryLock(s), Token(token), SUMMARY_TTL)
    .AddTo(Count(s), -count)
    .SetEx(Key.Bucket(s, count / 10), Status(Processed), BUCKET_TTL)
    .DeleteIf(SummaryLock(s), Token(token))
  }

  /** An interaction after `ms` of silence, its rows written and counted, and the job it enqueues run to its end. */
  function Interaction(s: string, st: State, ms: nat): State {
    var st1 := Increment(s, st.(store := st.store.Advance(ms), rows := st.rows.Create().Commit()));
    var n := st1.returned[|st1.returned| - 1];
    var st2 := Claim(s, st1, n, true, true);
    if |st2.jobs| > |st1.jobs| then
      Drive(Intended, s, st2, NewAttempt(n)).0
    else st2
  }

  function Life(s: string, gaps: seq<nat>): State {
    if gaps == [] then Fresh() else Interaction(s, Life(s, gaps[..|gaps| - 1]), gaps[|gaps| - 1])
  }

  /** No key runs out during the gaps. */
  ghost predicate NothingExpires(s: string, gaps: seq<nat>) {
    gaps == []
    || (&& NothingExpires(s, gaps[..|gaps| - 1])
        && var store := Life(s, gaps[..|gaps| - 1]).store.Advance(gaps[|gaps| - 1]);
           forall k :: k in store.data ==> store.Live(k))
  }

  /** How many interactions it takes to reach the k-th summary: 10, then 20 more, then 30 more. */
  function Threshold(k: nat): nat {
    if k == 0 then 0 else Threshold(k - 1) + 10 * k
  }

  lemma {:induction false} ThresholdClosed(k: nat)
    ensures Threshold(k) == 5 * k * (k + 1)
  {
    if k > 0 {
      ThresholdClosed(k - 1);
    }
  }

  /** After `n` interactions: `k` summaries, the claimed buckets, and what the counter holds. */
  ghost predicate Spaced(s: string, st: State, n: nat, k: nat) {
    && st.rows.versions == seq(k, i => i + 1)
    && Threshold(k) <= n < Threshold(k + 1)
    && st.store.NumberAt(Count(s)) == n - Threshold(k)
    && SummaryLock(s) !in st.store.data
    && (Count(s) in st.store.data <==> n > 0)
    && (Count(s) in st.store.data ==> st.store.data[Count(s)].value.Number?)
    && (forall b: int :: Key.Bucket(s, b) in st.store.data <==> 1 <= b <= k)
  }

  lemma {:induction false} LatestOfSpaced(k: nat)
    ensures Latest(seq(k, i => i + 1)) == k
  {
    if k > 0 {
      assert seq(k, i => i + 1)[..k - 1] == seq(k - 1, i => i + 1);
      LatestOfSpaced(k - 1);
    }
  }

  lemma AdvanceSpaced(s: string, st: State, ms: nat, n: nat, k: nat)
    requires Spaced(s, st, n, k)
    requires forall key :: key in st.store.data ==> st.store.Advance(ms).Live(key)
    ensures Spaced(s, st.(store := st.store.Advance(ms)), n, k)
  {
    if n > 0 {
      assert st.store.Advance(ms).Live(Count(s));
    }
  }

  lemma CountedOnce(s: string, st: State, n: nat, k: nat)
    requires Spaced(s, st, n, k)
    requires forall key :: key in st.store.data ==> st.store.Live(key)
    ensures var st1 := Increment(s, st);
            && st1.store.NumberAt(Count(s)) == n - Threshold(k) + 1
            && st1.returned == st.returned + [n - Threshold(k) + 1]
            && st1.rows == st.rows && st1.jobs == st.jobs
            && SummaryLock(s) !in st1.store.data
            && Count(s) in st1.store.data && st1.store.data[Count(s)].value.Number?
            && (forall b: int :: Key.Bucket(s, b) in st1.store.data <==> 1 <= b <= k)
            && (forall b: int :: 1 <= b <= k ==> st1.store.Live(Key.Bucket(s, b)))
            && st1.store.Live(Count(s))
  {
    assert forall b: int :: Key.Bucket(s, b) != Count(s);
  }

  lemma DebitedStore(s: string, store: Store, token: nat, count: int)
    requires SummaryLock(s) !in store.data && store.Live(Count(s)) && store.data[Count(s)].value.Number?
    ensures var after := Debited(s, store, token, count);
            && after.now == store.now && SummaryLock(s) !in after.data
            && Count(s) in after.data && after.data[Count(s)].value.Number?
            && after.NumberAt(Count(s)) == store.NumberAt(Count(s)) - count
            && (forall b: int :: Key.Bucket(s, b) in after.data <==> Key.Bucket(s, b) in store.data || b == count / 10)
  {
  }

  /** Claiming a bucket nobody claimed before. */
  lemma FreshClaim(s: string, st: State, n: int)
    requires n / 10 > 0 && Key.Bucket(s, n / 10) !in st.store.data
    ensures Claim(s, st, n, true, true)
            == st.(store := st.store.SetEx(Key.Bucket(s, n / 10), Status(Enqueued), BUCKET_TTL), jobs := st.jobs + [n])
  {
  }

  lemma FilledIsSpaced(s: string, st: State, n: nat, k: nat)
    requires n == Threshold(k) && k > 0 && st.rows.versions == seq(k - 1, i => i + 1) + [k]
    requires st.store.NumberAt(Count(s)) == 0 && SummaryLock(s) !in st.store.data
    requires Count(s) in st.store.data && st.store.data[Count(s)].value.Number?
    requires forall b: int :: Key.Bucket(s, b) in st.store.data <==> 1 <= b <= k
    ensures Spaced(s, st, n, k)
  {
    assert st.rows.versions == seq(k, i => i + 1);
    assert Threshold(k + 1) == Threshold(k) + 10 * (k + 1);
  }

  /** The claimed bucket's job, run on the claimed state. */
  lemma FilledJob(s: string, st1: State, c: int, k: nat)
    requires c == 10 * (k + 1) && st1.rows.versions == seq(k, i => i + 1)
    requires st1.rows.present && st1.rows.messages > 0
    requires st1.store.NumberAt(Count(s)) == c && SummaryLock(s) !in st1.store.data
    requires st1.store.Live(Count(s)) && st1.store.data[Count(s)].value.Number?
    requires forall b: int :: Key.Bucket(s, b) in st1.store.data <==> 1 <= b <= k
    ensures var st := Drive(Intended, s, Claim(s, st1, c, true, true), NewAttempt(c)).0;
            && Claim(s, st1, c, true, true).jobs == st1.jobs + [c]
            && st.rows.versions == seq(k, i => i + 1) + [k + 1]
            && st.store.NumberAt(Count(s)) == 0 && SummaryLock(s) !in st.store.data
            && Count(s) in st.store.data && st.store.data[Count(s)].value.Number?
            && (forall b: int :: Key.Bucket(s, b) in st.store.data <==> 1 <= b <= k + 1)
  {
    assert c / 10 == k + 1;
    FreshClaim(s, st1, c);
    var st2 := Claim(s, st1, c, true, true);
    LatestOfSpaced(k);
    JobAlone(s, st2, c);
    ClosedStore(s, st2, c);
    DebitedStore(s, st2.store, st2.nextToken, c);
  }

  lemma FilledSpaced(s: string, st1: State, n: nat, c: int, k: nat)
    requires n == Threshold(k + 1)
    requires c == 10 * (k + 1) && st1.rows.versions == seq(k, i => i + 1)
    requires st1.rows.present && st1.rows.messages > 0
    requires st1.store.NumberAt(Count(s)) == c && SummaryLock(s) !in st1.store.data
    requires st1.store.Live(Count(s)) && st1.store.data[Count(s)].value.Number?
    requires forall b: int :: Key.Bucket(s, b) in st1.store.data <==> 1 <= b <= k
    ensures |Claim(s, st1, c, true, true).jobs| == |st1.jobs| + 1
    ensures Spaced(s, Drive(Intended, s, Claim(s, st1, c, true, true), NewAttempt(c)).0, n, k + 1)
  {
    FilledJob(s, st1, c, k);
    FilledIsSpaced(s, Drive(Intended, s, Claim(s, st1, c, true, true), NewAttempt(c)).0, n, k + 1);
  }

  /** The rows of one more interaction, counted. */
  function CountedUp(s: string, st: State): State {
    Increment(s, st.(rows := st.rows.Create().Commit()))
  }

  lemma ClaimingInteraction(s: string, st: State, c: int)
    requires CountedUp(s, st).returned == st.returned + [c]
    requires |Claim(s, CountedUp(s, st), c, true, true).jobs| > |CountedUp(s, st).jobs|
    ensures Interaction(s, st, 0) == Drive(Intended, s, Claim(s, CountedUp(s, st), c, true, true), NewAttempt(c)).0
  {
    assert st.(store := st.store.Advance(0),
        rows := st.rows.Create().Commit()) == st.(rows := st.rows.Create().Commit());
  }

  /** The counter reaches the next bucket: it is claimed, summarised and subtracted. */
  lemma BucketFilled(s: string, st: State, n: nat, k: nat)
    requires Spaced(s, st, n, k) && n + 1 == Threshold(k + 1)
    requires forall key :: key in st.store.data ==> st.store.Live(key)
    ensures Spaced(s, Interaction(s, st, 0), n + 1, k + 1)
  {
    CountedOnce(s, st.(rows := st.rows.Create().Commit()), n, k);
    var c := n - Threshold(k) + 1;
    FilledSpaced(s, CountedUp(s, st), n + 1, c, k);
    ClaimingInteraction(s, st, c);
  }

  /** Otherwise the counter only moves on, through buckets already claimed. */
  lemma BucketPending(s: string, st: State, n: nat, k: nat)
    requires Spaced(s, st, n, k) && n + 1 != Threshold(k + 1)
    requires forall key :: key in st.store.data ==> st.store.Live(key)
    ensures Spaced(s, Interaction(s, st, 0), n + 1, k)
  {
    var written := st.(rows := st.rows.Create().Commit());
    CountedOnce(s, written, n, k);
    assert st.(store := st.store.Advance(0), rows := st.rows.Create().Commit()) == written;
    var c := n - Threshold(k) + 1;
    assert c / 10 <= k;
    assert Claim(s, Increment(s, written), c, true, true) == Increment(s, written);
  }

  lemma LaterInteraction(s: string, st: State, ms: nat)
    ensures Interaction(s, st.(store := st.store.Advance(ms)), 0) == Interaction(s, st, ms)
  {
    assert st.store.Advance(ms).Advance(0) == st.store.Advance(ms);
  }

  lemma SpacingStep(s: string, st: State, ms: nat, n: nat, k: nat) returns (k': nat)
    requires Spaced(s, st, n, k)
    requires forall key :: key in st.store.data ==> st.store.Advance(ms).Live(key)
    ensures Spaced(s, Interaction(s, st, ms), n + 1, k')
  {
    var later := st.(store := st.store.Advance(ms));
    AdvanceSpaced(s, st, ms, n, k);
    LaterInteraction(s, st, ms);
    if n + 1 == Threshold(k + 1) {
      BucketFilled(s, later, n, k);
      k' := k + 1;
    } else {
      BucketPending(s, later, n, k);
      k' := k;
    }
  }

  lemma {:induction false} SpacedLife(s: string, gaps: seq<nat>) returns (k: nat)
    requires NothingExpires(s, gaps)
    ensures Spaced(s, Life(s, gaps), |gaps|, k)
  {
    if gaps == [] {
      k := 0;
      assert Threshold(1) == 10;
    } else {
      k := SpacedLife(s, gaps[..|gaps| - 1]);
      k := SpacingStep(s, Life(s, gaps[..|gaps| - 1]), gaps[|gaps| - 1], |gaps| - 1, k);
    }
  }

  /** After n interactions: versions 1 to k with 5k(k+1) <= n < 5(k+1)(k+2), and a counter of n - 5k(k+1). */
  ghost predicate RealSpacing(s: string, st: State, n: nat) {
    var k := |st.rows.versions|;
    && 5 * k * (k + 1) <= n < 5 * (k + 1) * (k + 2)
    && st.rows.versions == seq(k, i => i + 1)
    && st.store.NumberAt(Count(s)) == n - 5 * k * (k + 1)
  }

  lemma SpacedClosed(s: string, st: State, n: nat, k: nat)
    requires Spaced(s, st, n, k)
    ensures RealSpacing(s, st, n)
  {
    assert k == |st.rows.versions|;
    ThresholdClosed(k);
    ThresholdClosed(k + 1);
  }

  /**
    The real spacing. If each enqueued job finishes before the next interaction and no key
    expires, then after n interactions there are exactly k summaries, versions 1 to k, where
    5k(k+1) <= n < 5(k+1)(k+2), and the counter holds n - 5k(k+1).
  */
  lemma SummarySpacing(s: string, gaps: seq<nat>)
    requires NothingExpires(s, gaps)
    ensures RealSpacing(s, Life(s, gaps), |gaps|)
  {
    var k := SpacedLife(s, gaps);
    SpacedClosed(s, Life(s, gaps), |gaps|, k);
  }
}
