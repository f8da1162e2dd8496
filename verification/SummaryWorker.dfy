/** The worker job and the counting half of `persist_interaction`, performed in place. */
module SummaryWorker {
  import opened Wrappers
  import opened RedisModel
  import opened RedisLock
  import opened Summarization
  import opened SummaryOrder

  /**
    The SQL rows of one session: its own, its messages, and conv_summaries with the unique
    constraint on the version.
  */
  class SessionTables {
    var present: bool
    var messages: nat
    var versions: seq<int>
    ghost var life: nat

    constructor ()
      ensures View() == Fresh().rows
    {
      present, messages, versions, life := false, 0, [], 0;
    }

    ghost function View(): Rows
      reads this
    {
      Rows(present, messages, versions, life)
    }

    /** `ON DELETE CASCADE`: messages and summaries go with the session row. */
    method DeleteSession() returns (found: bool)
      modifies this
      ensures View() == old(View()).Delete() && found == old(present)
    {
      found := present;
      if found {
        present, messages, versions := false, 0, [];
        life := life + 1;
      }
    }

    method LatestVersion() returns (latest: int)
      ensures latest == Latest(versions)
    {
      latest := 0;
      for i := 0 to |versions|
        invariant latest == Latest(versions[..i])
      {
        assert versions[..i + 1][..i] == versions[..i];
        if i == 0 || versions[i] > latest {
          latest := versions[i];
        }
      }
      assert versions[..|versions|] == versions;
    }

    method Create(version: int) returns (ok: bool)
      modifies this`versions
      ensures ok <==> version !in old(versions)
      ensures versions == if ok then old(versions) + [version] else old(versions)
    {
      ok := version !in versions;
      if ok {
        versions := versions + [version];
      }
    }
  }

  lemma DriveStep(code: Code, s: string, st: State, a: Attempt, st': State, a': Attempt)
    requires a.Holding() && a.token.Some? && Step(code, s, st, a) == (st', a')
    ensures SameEnd(code, s, st, a, st', a')
  {
  }

  class JobQueue {
    var jobs: seq<int>
  }

  class SessionSummaries {
    const session: string
    const redis: RedisClient
    const uuids: UuidSource
    const lock: RedisLockAdapter
    const table: SessionTables
    const queue: JobQueue
    ghost var debits: seq<Debit>
    ghost var increments: nat
    ghost var returned: seq<int>

    constructor (session: string, redis: RedisClient, uuids: UuidSource, table: SessionTables, queue: JobQueue)
      ensures Valid() && this.session == session && this.redis == redis && this.uuids == uuids
      ensures this.table == table && this.queue == queue && debits == [] && increments == 0 && returned == []
    {
      this.session, this.redis, this.uuids, this.table, this.queue := session, redis, uuids, table, queue;
      lock := new RedisLockAdapter(redis, uuids);
      debits, increments, returned := [], 0, [];
    }

    ghost predicate Valid() {
      lock.redis == redis && lock.uuids == uuids
    }

    ghost function View(): State
      reads this, redis, uuids, table, queue
    {
      State(redis.State(), uuids.next, table.View(), debits, increments, returned, queue.jobs)
    }

    /** INCR and EXPIRE, then SETNX of the bucket and the enqueue; `enqueues` says whether ARQ took the job. */
    method CountInteraction(pool: bool, enqueues: bool) returns (summarise: bool)
      requires Valid()
      modifies this, redis, queue
      ensures Valid()
      ensures var counted := Increment(session, old(View()));
              && View() == Claim(session, counted, counted.returned[|counted.returned| - 1], pool, enqueues)
              && (summarise <==> |View().jobs| > |old(View()).jobs|)
      ensures var before, after := old(redis.State()), redis.State();
              var n := before.NumberAt(Count(session)) + 1;
              var bucket := Key.Bucket(session, n / 10);
              var claims := n >= 10 && pool && !before.Live(bucket);
              && returned == old(returned) + [n] && increments == old(increments) + 1
              && Count(session) in after.data
              && after.data[Count(session)] == Entry(Number(n), Some(before.now + 86_400_000))
              && (claims ==> bucket in after.data)
              && (claims ==> after.data[bucket] == Entry(Status(Enqueued), Some(before.now + 604_800_000)))
              && (summarise <==> claims && enqueues)
              && queue.jobs == if summarise then old(queue.jobs) + [n] else old(queue.jobs)
    {
      var n := redis.IncrBy(Count(session), 1);
      redis.Expire(Count(session), COUNT_TTL);
      increments, returned := increments + 1, returned + [n];
      summarise := false;
      var bucket := n / 10;
      if bucket > 0 && pool {
        var won := redis.SetNx(Key.Bucket(session, bucket), Status(Enqueued), BUCKET_TTL);
        if won && enqueues {
          queue.jobs := queue.jobs + [n];
          summarise := true;
        }
      }
    }

    /** `run_summarization_job`: lock, two guards, write, subtract, mark, and the `finally`. */
    method RunSummarizationJob(code: Code, count: int)
      requires Valid()
      modifies this, redis, uuids, table
      ensures Valid() && View() == Drive(code, session, old(View()), NewAttempt(count)).0
    {
      ghost var st, a := View(), NewAttempt(count);
      var token := lock.Acquire(SummaryLock(session), SUMMARY_TTL);
      ghost var st1, a1 := View(), Step(code, session, st, a).1;
      assert Step(code, session, st, a) == (st1, a1);
      assert SameEnd(code, session, st, a, st1, a1);
      if token.None? {
        assert Drive(code, session, st1, a1) == (st1, a1);
        return;
      }
      ghost var a2 := Summarise(code, count, st1, a1);
      ghost var st2 := View();
      assert SameEnd(code, session, st, a, st2, a2);
      var _ := lock.Release(SummaryLock(session), token.value);
      DriveStep(code, session, st2, a2, View(), a2.(phase := Ended));
      assert Drive(code, session, View(), a2.(phase := Ended)) == (View(), a2.(phase := Ended));
    }

    /** The guarded part, up to the point where only the release is left. */
    method Summarise(code: Code, count: int, ghost st: State, ghost a0: Attempt) returns (ghost a: Attempt)
      requires Valid() && st == View() && a0.phase == Rechecking && a0.token.Some? && a0.count == count
      modifies this, redis, table
      ensures Valid() && a.phase == Releasing && a.token == a0.token
      ensures SameEnd(code, session, st, a0, View(), a)
    {
      var bucket := count / 10;
      a := a0.(phase := Releasing);
      var status := redis.Get(Key.Bucket(session, bucket));
      if status == Some(Status(Processed)) {
        return;
      }
      DriveStep(code, session, st, a0, st, a0.(phase := Guarding));
      var latest := table.LatestVersion();
      if latest >= bucket {
        if code == Intended {
          DriveStep(code, session, st, a0.(phase := Guarding), st, a0.(phase := Syncing));
          redis.Set(Key.Bucket(session, bucket), Status(Processed), BUCKET_TTL);
          DriveStep(code, session, st, a0.(phase := Syncing), View(), a);
        } else {
          DriveStep(code, session, st, a0.(phase := Guarding), st, a);
        }
        return;
      }
      DriveStep(code, session, st, a0.(phase := Guarding), st, a0.(phase := Loading));
      if code == AsWritten || table.messages == 0 {
        DriveStep(code, session, st, a0.(phase := Loading), st, a);
        return;
      }
      DriveStep(code, session, st, a0.(phase := Loading), st, a0.(phase := Writing));
      a := WriteAndSubtract(count, st, a0.(phase := Writing));
    }

    /** Stores the version, unless the constraint refuses it or there is no session row to store it for. */
    method WriteAndSubtract(count: int, ghost st: State, ghost a0: Attempt) returns (ghost a: Attempt)
      requires Valid() && st == View() && a0.phase == Writing && a0.token.Some? && a0.count == count
      modifies this, redis, table
      ensures Valid() && a.phase == Releasing && a.token == a0.token
      ensures SameEnd(Intended, session, st, a0, View(), a)
    {
      a := a0.(phase := Debiting, life := table.life, recorded := table.present);
      if table.present {
        var ok := table.Create(count / 10);
        if !ok {
          a := a0.(phase := Releasing);
          DriveStep(Intended, session, st, a0, st, a);
          return;
        }
      }
      ghost var written := View();
      DriveStep(Intended, session, st, a0, written, a);
      a := SubtractAndMark(count, written, a);
    }

    method SubtractAndMark(count: int, ghost st: State, ghost a0: Attempt) returns (ghost a: Attempt)
      requires Valid() && st == View() && a0.phase == Debiting && a0.token.Some? && a0.count == count
      modifies this`debits, redis
      ensures Valid() && a == a0.(phase := Releasing)
      ensures SameEnd(Intended, session, st, a0, View(), a)
    {
      var _ := redis.IncrBy(Count(session), -count);
      debits := debits + [Debit(count / 10, count, a0.life, a0.recorded)];
      ghost var subtracted := View();
      a := a0.(phase := Marking);
      DriveStep(Intended, session, st, a0, subtracted, a);
      redis.Set(Key.Bucket(session, count / 10), Status(Processed), BUCKET_TTL);
      DriveStep(Intended, session, subtracted, a, View(), a.(phase := Releasing));
      a := a.(phase := Releasing);
    }
  }
}
