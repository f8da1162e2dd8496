/**
  `ChatApplicationService` in its own form: `execute` with its `release_lock` flag, the
  inline and background finalizers, the SQL transaction. Each method performs exactly the
  steps of the session protocol for its request.
*/
module ChatApplication {
  import opened Wrappers
  import opened RedisModel
  import opened RedisLock
  import opened SessionProtocol
  import opened SessionSafety
  import opened SessionTheorems
  import opened Idempotency

  // --------------------------------------------------- the protocol, run by one task alone

  /** A task as it occurs in a run. */
  ghost predicate Sound(t: Task) {
    Shaped(t) && (t.Holding() ==> t.token.Some?) && (t.phase == Arrived ==> t.token.None?)
  }

  lemma SoundStep(sh: Shared, t: Task)
    requires Sound(t) && t.phase != Done
    ensures Sound(StepTask(sh, t).1) && Rank(StepTask(sh, t).1) < Rank(t)
  {
    ShapedStep(sh, t);
  }

  /** Steps until done or, if asked, until the handler hands over to its finalizer. */
  ghost function Drive(sh: Shared, t: Task, handler: bool): (Shared, Task)
    requires Sound(t)
    decreases Rank(t)
  {
    if t.phase == Done || (handler && HandedOver(t)) then (sh, t)
    else
      SoundStep(sh, t);
      var (sh', t') := StepTask(sh, t);
      Drive(sh', t', handler)
  }

  /** Running on from either point comes to the same. */
  ghost predicate SameEnd(sh: Shared, t: Task, sh': Shared, t': Task, handler: bool) {
    Sound(t) && Sound(t') && Drive(sh, t, handler) == Drive(sh', t', handler)
  }

  lemma OneStepOn(sh: Shared, t: Task, handler: bool)
    requires Sound(t) && t.phase != Done && !(handler && HandedOver(t))
    ensures SameEnd(sh, t, StepTask(sh, t).0, StepTask(sh, t).1, handler)
  {
    SoundStep(sh, t);
  }

  /**
    On every exit of `execute`, by return or by error: either the acquired lock is no longer
    held under its token, or the client has been answered and a finalizer holds the lock.
  */
  lemma {:induction false} HandlerExit(sh: Shared, t: Task)
    requires Sound(t) && t.phase != Done && !HandedOver(t)
    requires t.Holding() ==> sh.store.Has(SessionLock(t.LockName()), Token(t.token.value))
    ensures var (sh', t') := Drive(sh, t, true);
            && (t'.phase == Done || HandedOver(t'))
            && (t'.phase == Done && t'.token.Some? ==> !sh'.store.Has(SessionLock(t.LockName()), Token(t'.token.value)))
            && (HandedOver(t') ==>
                  && t'.token.Some? && sh'.store.Has(SessionLock(t.LockName()), Token(t'.token.value))
                  && t'.outcome == Replied(t.Answer())
                  && t'.phase == (if t.req.fast.Some? then Resolving(Finalizer) else Persisting(Finalizer)))
    decreases Rank(t)
  {
    SoundStep(sh, t);
    var (sh', t') := StepTask(sh, t);
    if t.phase != Arrived {
      HolderStep(sh, t);
    }
    if t'.phase != Done && !HandedOver(t') {
      HandlerExit(sh', t');
    }
  }

  /** Running on past the handover is running to the end. */
  lemma {:induction false} DriveThrough(sh: Shared, t: Task)
    requires Sound(t)
    ensures Sound(Drive(sh, t, true).1)
    ensures Drive(Drive(sh, t, true).0, Drive(sh, t, true).1, false) == Drive(sh, t, false)
    decreases Rank(t)
  {
    if t.phase != Done && !HandedOver(t) {
      SoundStep(sh, t);
      DriveThrough(StepTask(sh, t).0, StepTask(sh, t).1);
    }
  }

  /** A finalizer always releases the lock it inherited, whatever fails on the way. */
  lemma {:induction false} FinalizerReleases(sh: Shared, t: Task)
    requires Sound(t) && t.Holding()
    ensures var (sh', t') := Drive(sh, t, false);
            t'.phase == Done && t'.token == t.token && !sh'.store.Has(SessionLock(t.LockName()), Token(t.token.value))
    decreases Rank(t)
  {
    SoundStep(sh, t);
    HolderStep(sh, t);
    var (sh', t') := StepTask(sh, t);
    if t'.phase != Done {
      FinalizerReleases(sh', t');
    }
  }

  // ----------------------------------------------------------------- the SQL side

  /** Committed message rows; a transaction's pending rows are its own until it commits. */
  class ChatbotDb {
    var rows: seq<(string, Row)>

    /** Both inserts, the session update and the commit; any failure rolls everything back. */
    method Persist(session: string, user: string, assistant: string, fate: SqlFate) returns (ok: bool)
      modifies this
      ensures ok <==> fate.Succeeds()
      ensures rows == if ok then old(rows) + [(session, UserRow(user)), (session, AssistantRow(assistant))]
                      else old(rows)
    {
      var pending: seq<(string, Row)> := [];
      if !fate.user {
        return false;
      }
      pending := pending + [(session, UserRow(user))];
      if !fate.assistant {
        return false;
      }
      pending := pending + [(session, AssistantRow(assistant))];
      if !fate.session || !fate.commit {
        return false;
      }
      rows := rows + pending;
      ok := true;
    }
  }

  // ------------------------------------------------------------------- the service

  /** What a queued closure captured: the request, the outside world's answers, the lock token. */
  datatype Deferred =
    | NormalFinalize(req: Request, fate: Fate, token: nat)
    | FastFinalize(req: Request, fate: Fate, token: nat)

  function DeferredOf(req: Request, fate: Fate, token: nat): Deferred {
    if req.fast.Some? then FastFinalize(req, fate, token) else NormalFinalize(req, fate, token)
  }

  class BackgroundTasks {
    var queue: seq<Deferred>
  }

  class ChatApplicationService {
    const redis: RedisClient
    const uuids: UuidSource
    const lock: RedisLockAdapter
    const idempotency: IdempotencyService
    const db: ChatbotDb
    // whether responses are dumped in JSON mode before they are saved; the code does not ask for it
    const jsonMode: bool
    ghost var events: seq<Event>

    constructor (redis: RedisClient, uuids: UuidSource, db: ChatbotDb, jsonMode: bool)
      requires db.rows == []
      ensures Valid() && this.redis == redis && this.uuids == uuids && this.db == db && this.jsonMode == jsonMode
          && events == []
    {
      this.redis, this.uuids, this.db, this.jsonMode := redis, uuids, db, jsonMode;
      lock := new RedisLockAdapter(redis, uuids);
      idempotency := new IdempotencyService(redis);
      events := [];
    }

    /** The message table holds exactly what the events say was committed. */
    ghost predicate Valid()
      reads this, db
    {
      lock.redis == redis && lock.uuids == uuids && idempotency.redis == redis && db.rows == Table(events)
    }

    ghost function View(): Shared
      reads this, redis, uuids
    {
      Shared(redis.State(), uuids.next, events)
    }

    /** Records one effect of a task in the history. */
    ghost method Note(t: Task, what: What)
      requires t.token.Some?
      modifies this`events
      ensures View() == Log(old(View()), t, what)
      ensures Table(events) == Table(old(events)) + (if what.Committed?
                then [(what.session, UserRow(what.user)), (what.session, AssistantRow(what.assistant))] else [])
    {
      var e := Event(t.token.value, t.LockName(), t.req.idem, redis.now, what);
      assert (events + [e])[..|events|] == events;
      events := events + [e];
    }

    /** The fate's save is the one the dump allows. */
    predicate Decided(fate: Fate) {
      jsonMode || fate.saves == SetFails
    }

    // ------------------------------------------------ single steps; `t` is the task taking them

    method PersistPair(session: string, user: string, assistant: string, sql: SqlFate, ghost t: Task) returns (ok: bool)
      requires Valid() && Sound(t) && t.phase.Persisting?
      requires session == t.Session() && user == t.req.message && assistant == t.Content() && sql == t.fate.sql
      modifies this`events, db
      ensures Valid() && View() == StepTask(old(View()), t).0
      ensures ok == sql.Succeeds()
    {
      ok := db.Persist(session, user, assistant, sql);
      if ok {
        Note(t, Committed(session, user, assistant, !t.Generates()));
      }
    }

    method RememberTurn(ghost t: Task)
      requires Valid() && Sound(t) && t.phase.Remembering?
      modifies this`events
      ensures Valid() && View() == StepTask(old(View()), t).0
    {
      Note(t, Remembered);
    }

    /** Dumps the response, tokens and latency included, and saves it if the dump can be encoded. */
    method StoreReply(key: string, reply: Reply, saves: SaveFate) returns (ok: bool)
      requires Valid() && (jsonMode || saves == SetFails)
      modifies redis
      ensures redis.State() == SaveStore(old(redis.State()), key, reply, saves)
      ensures ok <==> saves == SaveOk
    {
      var usage: Usage := *;
      DumpDetermines(reply, usage, saves, jsonMode);
      ok := idempotency.Save(key, reply, Dump(reply, usage, jsonMode), saves);
    }

    method SaveReply(req: Request, reply: Reply, saves: SaveFate, ghost t: Task) returns (ok: bool)
      requires Valid() && Sound(t) && t.phase.Saving? && req == t.req && reply == t.Answer() && saves == t.fate.saves
      requires Decided(t.fate)
      modifies this`events, redis
      ensures Valid() && View() == StepTask(old(View()), t).0
      ensures ok <==> req.Keyed() ==> saves == SaveOk
    {
      ok := true;
      if req.Keyed() {
        ok := StoreReply(req.idem.value, reply, saves);
        if saves != SetFails {
          Note(t, Stored(reply, redis.now + IDEM_TTL));
        }
      }
    }

    method ReleaseLock(name: string, token: nat, ghost t: Task)
      requires Valid() && Sound(t) && t.phase.Releasing? && name == t.LockName() && t.token == Some(token)
      modifies redis
      ensures Valid() && View() == StepTask(old(View()), t).0
    {
      var _ := lock.Release(SessionLock(name), token);
    }

    /** The idempotency check: a hit, or a miss that lets the pipeline run. */
    method CheckKey(req: Request, fate: Fate, ghost t: Task) returns (verdict: Option<Outcome>)
      requires Valid() && Sound(t) && t.phase.Checking? && req == t.req && fate == t.fate
      modifies this`events
      ensures Valid() && View() == StepTask(old(View()), t).0
      ensures var t' := StepTask(old(View()), t).1;
              match verdict
              case Some(outcome) => t'.phase == Releasing(Handler) && t'.outcome == outcome
              case None => t'.phase == AfterMiss(t)
    {
      if !req.Keyed() {
        return None;
      }
      if !fate.readable {
        return Some(Failed(500));
      }
      var cached := idempotency.Get(req.idem.value);
      if cached.None? {
        Note(t, Missed);
        return None;
      }
      Note(t, Hit(cached.value));
      verdict := Some(if cached.value.mode == req.mode then Replied(cached.value) else Failed(500));
    }

    // ------------------------------------------------------------------ the handler

    method Execute(req: Request, fate: Fate, tasks: BackgroundTasks?) returns (outcome: Outcome, ghost t: Task)
      requires Valid() && (req.background <==> tasks != null) && Decided(fate)
      modifies this`events, redis, uuids, db, tasks
      ensures Valid()
      ensures Sound(NewTask(req, fate)) && (View(), t) == Drive(old(View()), NewTask(req, fate), true)
      ensures Sound(t) && t.req == req && t.fate == fate && outcome == t.outcome
      ensures if !fate.admitted then outcome == Failed(503)
              else if t.token.None? then outcome == Failed(429)
              else t.missedAt.Some? ==> Answered(req, fate, outcome)
      ensures HandedOver(t) && t.token.Some? ==>
          tasks != null && tasks.queue == old(tasks.queue) + [DeferredOf(req, fate, t.token.value)]
      ensures !HandedOver(t) && outcome.Replied? && tasks != null ==> tasks.queue == old(tasks.queue)
    {
      t := NewTask(req, fate);
      SoundStep(View(), t);
      ghost var before := View();
      if !fate.admitted {
        t := StepTask(before, t).1;
        return Failed(503), t;
      }
      var token := lock.Acquire(SessionLock(req.LockName()), LOCK_TTL);
      t := StepTask(before, t).1;
      if token.None? {
        return Failed(429), t;
      }
      var releaseLock;
      outcome, releaseLock, t := Guarded(req, fate, token.value, tasks, t);
      VerdictAnswers(t);
      if releaseLock {
        before := View();
        SoundStep(before, t);
        ReleaseLock(req.LockName(), token.value, t);
        t := StepTask(before, t).1;
      }
    }

    /** The `try` block: everything between acquiring the lock and the `finally`. */
    method Guarded(req: Request, fate: Fate, token: nat, tasks: BackgroundTasks?, ghost t0: Task)
      returns (outcome: Outcome, releaseLock: bool, ghost t: Task)
      requires Decided(fate)
      requires Valid() && (req.background <==> tasks != null)
      requires Sound(t0) && t0.phase == Checking && t0.req == req && t0.fate == fate && t0.token == Some(token)
      modifies this`events, redis, db, tasks
      ensures Valid()
      ensures Sound(t) && t.token == t0.token && t.req == req && t.fate == fate && outcome == t.outcome
      ensures Drive(old(View()), t0, true) == Drive(View(), t, true)
      ensures if releaseLock then t.phase == Releasing(Handler) else t.phase == Done || HandedOver(t)
      ensures HandedOver(t) ==> tasks != null && tasks.queue == old(tasks.queue) + [DeferredOf(req, fate, token)]
      ensures !HandedOver(t) && outcome.Replied? && tasks != null ==> tasks.queue == old(tasks.queue)
    {
      t := t0;
      ghost var before := View();
      SoundStep(before, t);
      var verdict := CheckKey(req, fate, t);
      t := StepTask(before, t).1;
      if verdict.Some? {
        return verdict.value, true, t;
      }
      if req.fast.Some? {
        outcome, releaseLock, t := FastPath(req, fate, token, tasks, t);
      } else {
        outcome, releaseLock, t := NormalPath(req, fate, token, tasks, t);
      }
    }

    method FastPath(req: Request, fate: Fate, token: nat, tasks: BackgroundTasks?, ghost t0: Task)
      returns (outcome: Outcome, releaseLock: bool, ghost t: Task)
      requires Decided(fate)
      requires Valid() && (req.background <==> tasks != null)
      requires Sound(t0) && t0.req == req && t0.fate == fate && t0.token == Some(token) && req.fast.Some?
      requires t0.phase == AfterMiss(t0)
      modifies this`events, redis, db, tasks
      ensures Valid()
      ensures Sound(t) && t.token == t0.token && t.req == req && t.fate == fate && outcome == t.outcome
      ensures Drive(old(View()), t0, true) == Drive(View(), t, true)
      ensures if releaseLock then t.phase == Releasing(Handler) else t.phase == Done || HandedOver(t)
      ensures Answered(req, fate, outcome)
      ensures HandedOver(t) ==> tasks != null && tasks.queue == old(tasks.queue) + [DeferredOf(req, fate, token)]
      ensures !HandedOver(t) && outcome.Replied? && tasks != null ==> tasks.queue == old(tasks.queue)
    {
      t := t0;
      releaseLock := true;
      if tasks != null {
        tasks.queue := tasks.queue + [FastFinalize(req, fate, token)];
        releaseLock := false;
      } else {
        t := FastFinalizeBody(req, fate, t, true);
      }
      var session := match req.session case Some(s) => s case None => fate.created;
      var reply := Reply(req.mode, session, req.fast.value);
      ghost var before := View();
      SoundStep(before, t);
      var saved := SaveReply(req, reply, fate.saves, t);
      t := StepTask(before, t).1;
      assert Drive(old(View()), t0, true) == Drive(View(), t, true);
      if saved {
        return Replied(reply), releaseLock, t;
      }
      outcome := Failed(500);
      if !releaseLock {
        before := View();
        SoundStep(before, t);
        ReleaseLock(req.LockName(), token, t);
        t := StepTask(before, t).1;
      }
    }

    method NormalPath(req: Request, fate: Fate, token: nat, tasks: BackgroundTasks?, ghost t0: Task)
      returns (outcome: Outcome, releaseLock: bool, ghost t: Task)
      requires Decided(fate)
      requires Valid() && (req.background <==> tasks != null)
      requires Sound(t0) && t0.req == req && t0.fate == fate && t0.token == Some(token) && req.fast.None?
      requires t0.phase == AfterMiss(t0)
      modifies this`events, redis, db, tasks
      ensures Valid()
      ensures Sound(t) && t.token == t0.token && t.req == req && t.fate == fate && outcome == t.outcome
      ensures Drive(old(View()), t0, true) == Drive(View(), t, true)
      ensures if releaseLock then t.phase == Releasing(Handler) else HandedOver(t)
      ensures Answered(req, fate, outcome)
      ensures HandedOver(t) ==> tasks != null && tasks.queue == old(tasks.queue) + [DeferredOf(req, fate, token)]
      ensures !HandedOver(t) && tasks != null ==> tasks.queue == old(tasks.queue)
    {
      t := t0;
      releaseLock := true;
      SoundStep(View(), t);
      t := StepTask(View(), t).1;
      if fate.refusal.Some? {
        return Failed(fate.refusal.value), true, t;
      }
      SoundStep(View(), t);
      t := StepTask(View(), t).1;
      assert Drive(View(), t0, true) == Drive(View(), t, true);
      var session := match req.session case Some(s) => s case None => fate.created;
      if fate.generated.None? {
        ghost var before := View();
        SoundStep(before, t);
        var _ := PersistPair(session, req.message, FAILED_REPLY, fate.sql, t);
        t := StepTask(before, t).1;
        return Replied(Reply(req.mode, session, FAILED_REPLY)), true, t;
      }
      var content := fate.generated.value;
      outcome := Replied(Reply(req.mode, session, if content == "" then EMPTY_REPLY else content));
      if tasks != null {
        tasks.queue := tasks.queue + [NormalFinalize(req, fate, token)];
        releaseLock := false;
      } else {
        t := NormalFinalizeBody(req, fate, t, true);
      }
    }

    // --------------------------------------------------------------- the finalizers

    /** Context resolution and persistence for a fast-path hit; errors are logged and swallowed. */
    method FastFinalizeBody(req: Request, fate: Fate, ghost t0: Task, ghost handler: bool) returns (ghost t: Task)
      requires Valid() && Sound(t0) && t0.req == req && t0.fate == fate && t0.token.Some? && req.fast.Some?
      requires t0.phase.Resolving? && (handler ==> !HandedOver(t0))
      modifies this`events, db
      ensures Valid() && Sound(t) && t.token == t0.token && t.req == req && t.fate == fate && t.outcome == t0.outcome
      ensures t.phase == if t0.phase.owner == Handler then Saving(Handler) else Releasing(Finalizer)
      ensures Drive(old(View()), t0, handler) == Drive(View(), t, handler)
    {
      SoundStep(View(), t0);
      t := StepTask(View(), t0).1;
      if fate.refusal.Some? {
        return;
      }
      ghost var before := View();
      SoundStep(before, t);
      var session := match req.session case Some(s) => s case None => fate.created;
      var ok := PersistPair(session, req.message, req.fast.value, fate.sql, t);
      t := StepTask(before, t).1;
      assert Drive(before, t0, handler) == Drive(View(), t, handler);
      if !ok {
        return;
      }
      before := View();
      SoundStep(before, t);
      RememberTurn(t);
      t := StepTask(before, t).1;
    }

    /** SQL, then memory, then the idempotency save; the first error ends it and is logged. */
    method NormalFinalizeBody(req: Request, fate: Fate, ghost t0: Task, ghost handler: bool) returns (ghost t: Task)
      requires Decided(fate)
      requires Valid() && Sound(t0) && t0.req == req && t0.fate == fate && t0.token.Some? && req.fast.None?
      requires t0.phase.Persisting? && fate.generated.Some? && (handler ==> !HandedOver(t0))
      modifies this`events, redis, db
      ensures Valid() && Sound(t) && t.token == t0.token && t.req == req && t.fate == fate && t.outcome == t0.outcome
      ensures t.phase == Releasing(t0.phase.owner)
      ensures Drive(old(View()), t0, handler) == Drive(View(), t, handler)
    {
      var session := match req.session case Some(s) => s case None => fate.created;
      var content := fate.generated.value;
      ghost var start := View();
      SoundStep(start, t0);
      var ok := PersistPair(session, req.message, content, fate.sql, t0);
      t := StepTask(start, t0).1;
      assert Drive(start, t0, handler) == Drive(View(), t, handler);
      if !ok {
        return;
      }
      t := RememberAndSave(req, fate, t, handler);
    }

    /** The rest of it, once the rows are committed. */
    method RememberAndSave(req: Request, fate: Fate, ghost t0: Task, ghost handler: bool) returns (ghost t: Task)
      requires Decided(fate)
      requires Valid() && Sound(t0) && t0.req == req && t0.fate == fate && t0.token.Some? && req.fast.None?
      requires t0.phase.Remembering? && fate.generated.Some? && (handler ==> !HandedOver(t0))
      modifies this`events, redis
      ensures Valid() && Sound(t) && t.token == t0.token && t.req == req && t.fate == fate && t.outcome == t0.outcome
      ensures t.phase == Releasing(t0.phase.owner)
      ensures SameEnd(old(View()), t0, View(), t, handler)
    {
      var session := match req.session case Some(s) => s case None => fate.created;
      var content := fate.generated.value;
      ghost var start := View();
      OneStepOn(start, t0, handler);
      RememberTurn(t0);
      t := StepTask(start, t0).1;
      ghost var before := View();
      assert t.phase == Saving(t0.phase.owner) && SameEnd(start, t0, before, t, handler);
      OneStepOn(before, t, handler);
      var reply := Reply(req.mode, session, if content == "" then EMPTY_REPLY else content);
      var _ := SaveReply(req, reply, fate.saves, t);
      t := StepTask(before, t).1;
    }

    /** One queued finalizer: its body, then the release in its `finally`. */
    method RunDeferred(d: Deferred, ghost t0: Task) returns (ghost t: Task)
      requires Decided(d.fate)
      requires Valid() && Sound(t0) && t0.req == d.req && t0.fate == d.fate && t0.token == Some(d.token)
      requires if d.FastFinalize? then d.req.fast.Some? && t0.phase == Resolving(Finalizer)
               else d.req.fast.None? && d.fate.generated.Some? && t0.phase == Persisting(Finalizer)
      modifies this`events, redis, db
      ensures Valid() && Sound(t) && t.outcome == t0.outcome
      ensures (View(), t) == Drive(old(View()), t0, false)
    {
      if d.FastFinalize? {
        t := FastFinalizeBody(d.req, d.fate, t0, false);
      } else {
        t := NormalFinalizeBody(d.req, d.fate, t0, false);
      }
      ghost var before := View();
      SoundStep(before, t);
      ReleaseLock(d.req.LockName(), d.token, t);
      t := StepTask(before, t).1;
    }

    // --------------------------------------------------------------- the framework

    /**
      One HTTP request: the handler, then, if it answered, its queued task; the queue of a
      request that ended in an error is discarded. Nothing is left locked under its token.
    */
    method Serve(req: Request, world: Fate) returns (outcome: Outcome, ghost t: Task)
      requires Valid()
      modifies this`events, redis, uuids, db
      ensures Valid() && Sound(NewTask(req, Determined(world, jsonMode)))
      ensures (View(), t) == Drive(old(View()), NewTask(req, Determined(world, jsonMode)), false)
      ensures t.phase == Done
      ensures if !world.admitted then outcome == Failed(503)
              else if t.token.None? then outcome == Failed(429)
              else t.missedAt.Some? ==> Answered(req, Determined(world, jsonMode), outcome)
      ensures t.token.Some? ==> !redis.State().Has(SessionLock(req.LockName()), Token(t.token.value))
    {
      var tasks: BackgroundTasks? := null;
      if req.background {
        tasks := new BackgroundTasks;
        tasks.queue := [];
      }
      var fate := Determined(world, jsonMode);
      assert View() == old(View());
      SoundStep(View(), NewTask(req, fate));
      HandlerExit(View(), NewTask(req, fate));
      DriveThrough(View(), NewTask(req, fate));
      outcome, t := Execute(req, fate, tasks);
      if tasks != null && outcome.Replied? && tasks.queue != [] {
        FinalizerReleases(View(), t);
        t := RunDeferred(tasks.queue[0], t);
        VerdictAnswers(t);
      }
    }
  }
}
