/**
  The life of a chat request as a sequence of atomic steps on the shared world:
  admission, lock, idempotency check, fast or normal path, handover of the lock to a
  background finalizer, persistence, idempotency save, release. What the outside world
  answers (the model, the databases, serialisation) is fixed per request by a `Fate`, so
  quantifying over fates and interleavings covers every behaviour.
*/
module SessionProtocol {
  import opened Wrappers
  import opened RedisModel

  /** AI_REQUEST_TIMEOUT + 30, in milliseconds. */
  const LOCK_TTL: nat := 75 * SECOND
  const IDEM_TTL: nat := 86400 * SECOND

  const EMPTY_REPLY: string := "عذراً، لم أستطع العثور على رد مناسب حالياً. يرجى المحاولة مرة أخرى."
  const FAILED_REPLY: string := "حصلت مشكلة في توليد الرد، حاول مرة تانية"

  datatype Request = Request(
    session: Option<string>,
    user: string,
    mode: Mode,
    idem: Option<string>,
    message: string,
    fast: Option<string>,   // the fast path's answer, when its patterns match the message
    background: bool)       // whether the caller supplied background tasks
  {
    /** The lock is per session, or per user while there is no session yet. */
    function LockName(): string {
      match session
      case Some(s) => s
      case None => user
    }

    predicate Keyed() {
      idem.Some? && idem.value != ""
    }

    /** Whether the fast path's finalizer is queued rather than run inline. */
    predicate FastQueued() {
      fast.Some? && background
    }
  }

  /** Which statements of the persistence transaction succeed. */
  datatype SqlFate = SqlFate(user: bool, assistant: bool, session: bool, commit: bool) {
    predicate Succeeds() {
      user && assistant && session && commit
    }
  }

  datatype SaveFate = SaveOk | SetFails | UnlockFails

  datatype Fate = Fate(
    admitted: bool,             // circuit closed, or a probe granted
    readable: bool,             // the idempotency read did not raise
    created: string,            // id of the session created when the request names none
    refusal: Option<nat>,       // status raised while resolving profile, session and memory
    generated: Option<string>,  // the model's answer; None on any failure or timeout
    sql: SqlFate,
    saves: SaveFate)

  datatype Owner = Handler | Finalizer

  datatype Phase =
    | Arrived
    | Checking
    | Resolving(owner: Owner)
    | Generating
    | Persisting(owner: Owner)
    | Remembering(owner: Owner)
    | Saving(owner: Owner)
    | Releasing(owner: Owner)
    | Done

  datatype Outcome = Pending | Replied(reply: Reply) | Failed(status: nat)

  datatype Task = Task(
    req: Request,
    fate: Fate,
    phase: Phase,
    token: Option<nat>,       // the lock token, once acquired
    acquiredAt: nat,
    missedAt: Option<nat>,    // when the idempotency check let the pipeline run
    outcome: Outcome)
  {
    function LockName(): string { req.LockName() }

    /** Between acquiring the lock and releasing it. */
    predicate Holding() {
      phase != Arrived && phase != Done
    }

    function Session(): string {
      match req.session
      case Some(s) => s
      case None => fate.created
    }

    predicate Generates() {
      req.fast.Some? || fate.generated.Some?
    }

    /** The queued fast-path finalizer is dropped because the save raised. */
    predicate Dropped() {
      req.FastQueued() && req.Keyed() && fate.saves != SaveOk
    }

    /** Whether a request that runs its pipeline leaves a message pair behind. */
    predicate Commits() {
      fate.refusal.None? && fate.sql.Succeeds() && !Dropped()
    }

    /** Whether a request that runs its pipeline leaves a stored idempotency result behind. */
    predicate Stores() {
      && req.Keyed() && fate.saves != SetFails
      && (req.fast.Some? || (fate.refusal.None? && fate.generated.Some? && fate.sql.Succeeds()))
    }

    /** What is stored as the assistant's message. */
    function Content(): string {
      if req.fast.Some? then req.fast.value
      else if fate.generated.Some? then fate.generated.value
      else FAILED_REPLY
    }

    /** What the client is told when its pipeline ran. */
    function Verdict(): Outcome {
      if req.fast.Some? then
        if req.Keyed() && fate.saves != SaveOk then Failed(500) else Replied(Answer())
      else match fate.refusal
        case Some(status) => Failed(status)
        case None => Replied(Answer())
    }

    /** The response built from the content. */
    function Answer(): Reply {
      Reply(req.mode, Session(), if Content() == "" && req.fast.None? then EMPTY_REPLY else Content())
    }
  }

  function NewTask(req: Request, fate: Fate): Task {
    Task(req, fate, Arrived, None, 0, None, Pending)
  }

  datatype What =
    | Missed
    | Hit(reply: Reply)
    | Committed(session: string, user: string, assistant: string, failed: bool)
    | Remembered
    | Stored(reply: Reply, expires: nat)

  /** One visible effect of the critical section of `token` under `lock`. */
  datatype Event = Event(token: nat, lock: string, key: Option<string>, at: nat, what: What)

  datatype Shared = Shared(store: Store, nextToken: nat, events: seq<Event>)

  function Log(sh: Shared, t: Task, what: What): Shared
    requires t.token.Some?
  {
    sh.(events := sh.events + [Event(t.token.value, t.LockName(), t.req.idem, sh.store.now, what)])
  }

  // ------------------------------------------------------------------ the steps

  function Admit(sh: Shared, t: Task): (Shared, Task) {
    if !t.fate.admitted then
      (sh, t.(phase := Done, outcome := Failed(503)))
    else
      var lock := SessionLock(t.LockName());
      var sh' := sh.(store := sh.store.SetNx(lock, Token(sh.nextToken), LOCK_TTL), nextToken := sh.nextToken + 1);
      if sh.store.Live(lock) then
        (sh', t.(phase := Done, outcome := Failed(429)))
      else
        (sh', t.(phase := Checking, token := Some(sh.nextToken), acquiredAt := sh.store.now))
  }

  /** What follows a miss: the fast path with a queued finalizer saves first. */
  function AfterMiss(t: Task): Phase {
    if t.req.FastQueued() then Saving(Handler) else Resolving(Handler)
  }

  function Check(sh: Shared, t: Task): (Shared, Task)
    requires t.token.Some?
  {
    if !t.req.Keyed() then
      (sh, t.(phase := AfterMiss(t), missedAt := Some(sh.store.now)))
    else if !t.fate.readable then
      (sh, t.(phase := Releasing(Handler), outcome := Failed(500)))
    else
      match sh.store.Get(IdemResult(t.req.idem.value))
      case Some(Saved(reply)) =>
        // validating one response class against the other's dump raises
        (Log(sh, t, Hit(reply)),
         t.(phase := Releasing(Handler),
            outcome := if reply.mode == t.req.mode then Replied(reply) else Failed(500)))
      case _ =>
        (Log(sh, t, Missed), t.(phase := AfterMiss(t), missedAt := Some(sh.store.now)))
  }

  /** Profile, session, memory and token count: an error ends the request or, on the fast path, is swallowed. */
  function Resolve(sh: Shared, t: Task): (Shared, Task)
    requires t.phase.Resolving?
  {
    var o := t.phase.owner;
    match t.fate.refusal
    case Some(status) =>
      if t.req.fast.None? then (sh, t.(phase := Releasing(o), outcome := Failed(status)))
      else if o == Handler then (sh, t.(phase := Saving(o)))
      else (sh, t.(phase := Releasing(o)))
    case None =>
      (sh, t.(phase := if t.req.fast.Some? then Persisting(o) else Generating))
  }

  /** On success with background tasks the handler answers and the finalizer inherits the lock. */
  function Generate(sh: Shared, t: Task): (Shared, Task) {
    if t.fate.generated.None? then
      (sh, t.(phase := Persisting(Handler), outcome := Replied(t.Answer())))
    else
      (sh, t.(phase := Persisting(if t.req.background then Finalizer else Handler),
              outcome := Replied(t.Answer())))
  }

  function Persist(sh: Shared, t: Task): (Shared, Task)
    requires t.phase.Persisting? && t.token.Some?
  {
    var o := t.phase.owner;
    var sh' := if t.fate.sql.Succeeds()
               then Log(sh, t, Committed(t.Session(), t.req.message, t.Content(), !t.Generates()))
               else sh;
    if !t.Generates() then (sh', t.(phase := Releasing(o)))
    else if t.fate.sql.Succeeds() then (sh', t.(phase := Remembering(o)))
    else if t.req.fast.Some? && o == Handler then (sh', t.(phase := Saving(o)))
    else (sh', t.(phase := Releasing(o)))
  }

  function Remember(sh: Shared, t: Task): (Shared, Task)
    requires t.phase.Remembering? && t.token.Some?
  {
    var o := t.phase.owner;
    (Log(sh, t, Remembered),
     t.(phase := if t.req.fast.Some? && o == Finalizer then Releasing(o) else Saving(o)))
  }

  /** The store after `save`: the result is set, then the processing lock is deleted. */
  function SaveStore(s: Store, key: string, reply: Reply, fate: SaveFate): Store {
    match fate
    case SetFails => s
    case UnlockFails => s.SetEx(IdemResult(key), Saved(reply), IDEM_TTL)
    case SaveOk => s.SetEx(IdemResult(key), Saved(reply), IDEM_TTL).Delete(IdemLock(key))
  }

  /**
    A failed save is an error on the fast path (the queued finalizer is dropped with the
    request) and is swallowed on the normal path.
  */
  function Save(sh: Shared, t: Task): (Shared, Task)
    requires t.phase.Saving? && t.token.Some?
  {
    var o := t.phase.owner;
    var raises := t.req.Keyed() && t.fate.saves != SaveOk;
    var sh' := if t.req.Keyed() && t.fate.saves != SetFails
               then Log(sh.(store := SaveStore(sh.store, t.req.idem.value, t.Answer(), t.fate.saves)), t,
                        Stored(t.Answer(), sh.store.now + IDEM_TTL))
               else sh;
    if t.req.fast.None? then (sh', t.(phase := Releasing(o)))
    else if raises then (sh', t.(phase := Releasing(o), outcome := Failed(500)))
    else (sh', t.(phase := if t.req.background then Resolving(Finalizer) else Releasing(o),
                  outcome := Replied(t.Answer())))
  }

  function Release(sh: Shared, t: Task): (Shared, Task)
    requires t.token.Some?
  {
    (sh.(store := sh.store.DeleteIf(SessionLock(t.LockName()), Token(t.token.value))), t.(phase := Done))
  }

  function StepHolder(sh: Shared, t: Task): (Shared, Task)
    requires t.token.Some? && t.Holding()
  {
    if t.phase.Checking? then Check(sh, t)
    else if t.phase.Resolving? then Resolve(sh, t)
    else if t.phase.Generating? then Generate(sh, t)
    else if t.phase.Persisting? then Persist(sh, t)
    else if t.phase.Remembering? then Remember(sh, t)
    else if t.phase.Saving? then Save(sh, t)
    else Release(sh, t)
  }

  /** One atomic step of a task; a finished task does nothing. */
  function StepTask(sh: Shared, t: Task): (Shared, Task) {
    if t.phase == Arrived then Admit(sh, t)
    else if t.Holding() && t.token.Some? then StepHolder(sh, t)
    else (sh, t)
  }

  // ------------------------------------------------------------- the whole system

  datatype World = World(shared: Shared, tasks: seq<Task>)

  datatype Action = Tick(ms: nat) | Arrive(req: Request, fate: Fate) | Run(task: nat)

  function Next(w: World, a: Action): World {
    match a
    case Tick(ms) => w.(shared := w.shared.(store := w.shared.store.Advance(ms)))
    case Arrive(req, fate) => w.(tasks := w.tasks + [NewTask(req, fate)])
    case Run(i) =>
      if i < |w.tasks| then
        var (sh, t) := StepTask(w.shared, w.tasks[i]);
        World(sh, w.tasks[i := t])
      else w
  }

  function Init(): World {
    World(Shared(Store(0, map[]), 0, []), [])
  }

  function After(run: seq<Action>): World {
    if run == [] then Init() else Next(After(run[..|run| - 1]), run[|run| - 1])
  }

  /** No task is still holding a lock whose time to live has run out. */
  ghost predicate Timely(w: World) {
    forall i :: 0 <= i < |w.tasks| && w.tasks[i].Holding() ==>
      w.shared.store.now < w.tasks[i].acquiredAt + 75 * SECOND
  }

  /** In every state the run passes through, no holder outlives its lock. */
  ghost predicate TimelyRun(run: seq<Action>) {
    forall n :: 0 <= n <= |run| ==> Timely(After(run[..n]))
  }

  /** Every idempotency key is used under one lock only, namely `home(key)`. */
  ghost predicate Homed(home: string -> string, run: seq<Action>) {
    forall n :: 0 <= n < |run| && run[n].Arrive? && run[n].req.Keyed() ==>
      run[n].req.LockName() == home(run[n].req.idem.value)
  }
}
