/**
  The two guarantees the chat pipeline documents for its session lock: strict message
  ordering in the SQL log, and serialised idempotency.
*/
module SessionTheorems {
  import opened Wrappers
  import opened RedisModel
  import opened SessionProtocol
  import opened SessionSafety

  // ------------------------------------------------------- provenance of events

  /** Whether an event says what its task would have it say. */
  ghost predicate Faithful(e: Event, t: Task) {
    && t.token == Some(e.token)
    && match e.what
       case Committed(session, user, assistant, failed) =>
         && t.Commits() && session == t.Session() && user == t.req.message
         && assistant == t.Content() && failed == !t.Generates()
       case Stored(reply, expires) =>
         t.Stores() && t.Generates() && reply == t.Answer() && expires == e.at + IDEM_TTL
       case Remembered => t.fate.sql.Succeeds() && t.Generates()
       case _ => t.req.Keyed()
  }

  ghost predicate BeforeCommit(t: Task) {
    || t.phase.Checking? || t.phase.Resolving? || t.phase.Generating? || t.phase.Persisting?
    || (t.phase == Saving(Handler) && t.req.FastQueued())
  }

  ghost predicate BeforeSave(t: Task) {
    || t.phase.Checking? || t.phase.Saving?
    || ((t.phase.Resolving? || t.phase.Generating? || t.phase.Persisting? || t.phase.Remembering?)
        && !t.req.FastQueued())
  }

  ghost predicate MissedBefore(events: seq<Event>, token: nat, q: nat) {
    exists m :: 0 <= m < q && m < |events| && events[m].token == token && events[m].what == Missed
  }

  ghost predicate HasTask(tasks: seq<Task>, token: nat) {
    exists i :: 0 <= i < |tasks| && tasks[i].token == Some(token)
  }

  /** Each event has its task. */
  ghost predicate Sourced(w: World) {
    forall p :: 0 <= p < |w.shared.events| ==> HasTask(w.tasks, w.shared.events[p].token)
  }

  /** Each event says what its task would have it say; a task commits once and stores once. */
  ghost predicate Once(w: World) {
    && (forall p, i :: 0 <= p < |w.shared.events| && 0 <= i < |w.tasks|
                       && w.tasks[i].token == Some(w.shared.events[p].token) ==>
          && Faithful(w.shared.events[p], w.tasks[i])
          && !(w.shared.events[p].what.Committed? && BeforeCommit(w.tasks[i]))
          && !(w.shared.events[p].what.Stored? && BeforeSave(w.tasks[i])))
    && (forall p, q :: 0 <= p < q < |w.shared.events| && w.shared.events[p].what.Committed?
                       && w.shared.events[q].what.Committed? ==>
          w.shared.events[p].token != w.shared.events[q].token)
  }

  ghost predicate Effect(e: Event) {
    e.what.Committed? || e.what.Stored?
  }

  /** A keyed task runs, and commits or stores, only after its own miss. */
  ghost predicate MissFirst(w: World) {
    && (forall i :: 0 <= i < |w.tasks| && w.tasks[i].Holding() && w.tasks[i].req.Keyed()
                    && w.tasks[i].missedAt.Some? ==>
          w.tasks[i].token.Some? && MissedBefore(w.shared.events, w.tasks[i].token.value, |w.shared.events|))
    && (forall q :: 0 <= q < |w.shared.events| && Effect(w.shared.events[q])
                    && w.shared.events[q].key.Some? && w.shared.events[q].key.value != "" ==>
          MissedBefore(w.shared.events, w.shared.events[q].token, q))
  }

  ghost predicate Told(w: World) {
    Sourced(w) && Once(w) && MissFirst(w)
  }

  lemma SourcedStep(w: World, a: Action)
    requires Base(w) && Sourced(w)
    ensures Sourced(Next(w, a))
  {
    var w' := Next(w, a);
    if a.Run? && a.task < |w.tasks| && w.tasks[a.task].Holding() {
      HolderStep(w.shared, w.tasks[a.task]);
    }
    forall p | 0 <= p < |w'.shared.events|
      ensures HasTask(w'.tasks, w'.shared.events[p].token)
    {
      if p < |w.shared.events| {
        assert HasTask(w.tasks, w.shared.events[p].token);
        var i :| 0 <= i < |w.tasks| && w.tasks[i].token == Some(w.shared.events[p].token);
        assert w'.tasks[i].token == Some(w'.shared.events[p].token);
      } else {
        assert w'.tasks[a.task].token == Some(w'.shared.events[p].token);
      }
    }
  }

  /** The event a holder's step appends, and what the step does to the commit and save budgets. */
  ghost predicate Appends(sh: Shared, t: Task, sh': Shared, t': Task) {
    |sh'.events| > |sh.events| ==>
      var e := sh'.events[|sh.events|];
      && Faithful(e, t')
      && (e.what.Committed? ==> BeforeCommit(t) && !BeforeCommit(t') && t.phase.Persisting?)
      && (e.what.Stored? ==> BeforeSave(t) && !BeforeSave(t') && t.phase.Saving?)
      && (e.what == Missed ==> t.phase.Checking?)
  }

  /** A miss, a commit and a save that are due leave their event. */
  ghost predicate Accounts(sh: Shared, t: Task, sh': Shared, t': Task) {
    && (t'.missedAt != t.missedAt && t.req.Keyed() ==>
          |sh'.events| > |sh.events| && sh'.events[|sh.events|].what == Missed)
    && (BeforeCommit(t) && !BeforeCommit(t') && t'.missedAt.Some? && t.Commits() ==>
          |sh'.events| > |sh.events| && sh'.events[|sh.events|].what.Committed?)
    && (BeforeSave(t) && !BeforeSave(t') && t'.missedAt.Some? && t.Stores() ==>
          |sh'.events| > |sh.events| && sh'.events[|sh.events|].what.Stored?)
  }

  lemma HolderAppends(sh: Shared, t: Task)
    requires t.token.Some? && t.Holding() && Shaped(t)
    ensures Appends(sh, t, StepTask(sh, t).0, StepTask(sh, t).1)
  {
  }

  lemma HolderAccounts(sh: Shared, t: Task)
    requires t.token.Some? && t.Holding() && Shaped(t)
    ensures Accounts(sh, t, StepTask(sh, t).0, StepTask(sh, t).1)
  {
  }

  lemma HolderBudgets(sh: Shared, t: Task)
    requires t.token.Some? && t.Holding() && Shaped(t)
    ensures var t' := StepTask(sh, t).1;
            (BeforeCommit(t') ==> BeforeCommit(t)) && (BeforeSave(t') ==> BeforeSave(t))
  {
  }

  lemma HolderEvent(sh: Shared, t: Task)
    requires t.token.Some? && t.Holding() && Shaped(t)
    ensures var (sh', t') := StepTask(sh, t);
            && (BeforeCommit(t') ==> BeforeCommit(t)) && (BeforeSave(t') ==> BeforeSave(t))
            && Appends(sh, t, sh', t') && Accounts(sh, t, sh', t')
  {
    HolderBudgets(sh, t);
    HolderAppends(sh, t);
    HolderAccounts(sh, t);
  }

  /** What a holder's step amounts to, for the events of its own task and of all others. */
  lemma OnceGrows(w: World, i: nat, sh': Shared, t': Task)
    requires Tokens(w) && Once(w) && i < |w.tasks| && w.tasks[i].token.Some?
    requires t'.req == w.tasks[i].req && t'.fate == w.tasks[i].fate && t'.token == w.tasks[i].token
    requires (BeforeCommit(t') ==> BeforeCommit(w.tasks[i])) && (BeforeSave(t') ==> BeforeSave(w.tasks[i]))
    requires Appends(w.shared, w.tasks[i], sh', t')
    requires sh'.events == w.shared.events
             || (|sh'.events| == |w.shared.events| + 1 && sh'.events[..|w.shared.events|] == w.shared.events
                 && Some(sh'.events[|w.shared.events|].token) == t'.token)
    ensures Once(World(sh', w.tasks[i := t']))
  {
    var n, tasks := |w.shared.events|, w.tasks[i := t'];
    assert forall p :: 0 <= p < n ==> sh'.events[p] == w.shared.events[p];
    forall p, j | 0 <= p < |sh'.events| && 0 <= j < |tasks| && tasks[j].token == Some(sh'.events[p].token)
      ensures Faithful(sh'.events[p], tasks[j])
      ensures !(sh'.events[p].what.Committed? && BeforeCommit(tasks[j]))
      ensures !(sh'.events[p].what.Stored? && BeforeSave(tasks[j]))
    {
      if p < n {
        assert w.tasks[j].token == Some(w.shared.events[p].token);
        assert Faithful(w.shared.events[p], w.tasks[j]);
      } else {
        assert j == i;
      }
    }
  }

  lemma OnceHolder(w: World, i: nat)
    requires Base(w) && Sourced(w) && Once(w)
    requires i < |w.tasks| && w.tasks[i].Holding()
    ensures Once(Next(w, Run(i)))
  {
    HolderStep(w.shared, w.tasks[i]);
    HolderEvent(w.shared, w.tasks[i]);
    OnceGrows(w, i, StepTask(w.shared, w.tasks[i]).0, StepTask(w.shared, w.tasks[i]).1);
  }

  lemma AdmitsQuietly(sh: Shared, t: Task)
    requires !t.Holding()
    ensures StepTask(sh, t).0.events == sh.events
  {
  }

  lemma OnceStep(w: World, a: Action)
    requires Base(w) && Sourced(w) && Once(w)
    ensures Once(Next(w, a))
  {
    if a.Run? && a.task < |w.tasks| && w.tasks[a.task].Holding() {
      OnceHolder(w, a.task);
    } else if a.Run? && a.task < |w.tasks| {
      var w' := Next(w, a);
      AdmitsQuietly(w.shared, w.tasks[a.task]);
      assert forall j :: 0 <= j < |w.tasks| && j != a.task ==> w'.tasks[j] == w.tasks[j];
    }
  }

  lemma MissedExtends(events: seq<Event>, more: seq<Event>, token: nat, q: nat, r: nat)
    requires events <= more && q <= r && MissedBefore(events, token, q)
    ensures MissedBefore(more, token, r)
  {
    var m :| 0 <= m < q && m < |events| && events[m].token == token && events[m].what == Missed;
    assert more[m] == events[m];
  }

  lemma MissFirstStep(w: World, a: Action)
    requires Base(w) && MissFirst(w)
    ensures MissFirst(Next(w, a))
  {
    var w' := Next(w, a);
    var events, events' := w.shared.events, w'.shared.events;
    if a.Run? && a.task < |w.tasks| && w.tasks[a.task].Holding() {
      HolderStep(w.shared, w.tasks[a.task]);
      HolderEvent(w.shared, w.tasks[a.task]);
    }
    forall i | 0 <= i < |w'.tasks| && w'.tasks[i].Holding() && w'.tasks[i].req.Keyed() && w'.tasks[i].missedAt.Some?
      ensures w'.tasks[i].token.Some? && MissedBefore(events', w'.tasks[i].token.value, |events'|)
    {
      if i < |w.tasks| && w.tasks[i].missedAt == w'.tasks[i].missedAt {
        MissedExtends(events, events', w.tasks[i].token.value, |events|, |events'|);
      } else {
        assert events'[|events|].what == Missed;
      }
    }
    forall q | 0 <= q < |events'| && Effect(events'[q]) && events'[q].key.Some? && events'[q].key.value != ""
      ensures MissedBefore(events', events'[q].token, q)
    {
      MissedExtends(events, events', events'[q].token, q, q);
    }
  }

  lemma ToldStep(w: World, a: Action)
    requires Base(w) && Told(w)
    ensures Told(Next(w, a))
  {
    SourcedStep(w, a);
    OnceStep(w, a);
    MissFirstStep(w, a);
  }

  lemma {:induction false} ToldRun(run: seq<Action>)
    ensures Base(After(run)) && Told(After(run))
  {
    BaseRun(run);
    if run != [] {
      ToldRun(run[..|run| - 1]);
      ToldStep(After(run[..|run| - 1]), run[|run| - 1]);
    }
  }

  // ------------------------------------------------- nothing lost, nothing invented

  ghost predicate HasCommit(events: seq<Event>, token: nat) {
    exists p :: 0 <= p < |events| && events[p].token == token && events[p].what.Committed?
  }

  ghost predicate HasStored(events: seq<Event>, token: nat) {
    exists p :: 0 <= p < |events| && events[p].token == token && events[p].what.Stored?
  }

  ghost predicate Delivered(sh: Shared, t: Task) {
    t.token.Some? && t.missedAt.Some? ==>
      && (t.Commits() && !BeforeCommit(t) ==> HasCommit(sh.events, t.token.value))
      && (t.Stores() && !BeforeSave(t) ==> HasStored(sh.events, t.token.value))
  }

  lemma DeliveredExtends(sh: Shared, sh': Shared, t: Task)
    requires Delivered(sh, t) && sh.events <= sh'.events
    ensures Delivered(sh', t)
  {
    if t.token.Some? && t.missedAt.Some? {
      if t.Commits() && !BeforeCommit(t) {
        var p :| 0 <= p < |sh.events| && sh.events[p].token == t.token.value && sh.events[p].what.Committed?;
        assert sh'.events[p] == sh.events[p];
      }
      if t.Stores() && !BeforeSave(t) {
        var p :| 0 <= p < |sh.events| && sh.events[p].token == t.token.value && sh.events[p].what.Stored?;
        assert sh'.events[p] == sh.events[p];
      }
    }
  }

  lemma DeliveredHolder(sh: Shared, t: Task)
    requires t.token.Some? && t.Holding() && Shaped(t) && Delivered(sh, t)
    ensures Delivered(StepTask(sh, t).0, StepTask(sh, t).1)
  {
    HolderStep(sh, t);
    HolderEvent(sh, t);
    var (sh', t') := StepTask(sh, t);
    DeliveredExtends(sh, sh', t);
    if |sh'.events| > |sh.events| {
      assert sh'.events[|sh.events|].token == t.token.value;
    }
  }

  lemma DeliveredStep(w: World, a: Action)
    requires Base(w) && forall i :: 0 <= i < |w.tasks| ==> Delivered(w.shared, w.tasks[i])
    ensures forall i :: 0 <= i < |Next(w, a).tasks| ==> Delivered(Next(w, a).shared, Next(w, a).tasks[i])
  {
    var w' := Next(w, a);
    if a.Run? && a.task < |w.tasks| && w.tasks[a.task].Holding() {
      HolderStep(w.shared, w.tasks[a.task]);
      DeliveredHolder(w.shared, w.tasks[a.task]);
    }
    forall i | 0 <= i < |w'.tasks|
      ensures Delivered(w'.shared, w'.tasks[i])
    {
      if i < |w.tasks| && !(a.Run? && a.task == i) {
        DeliveredExtends(w.shared, w'.shared, w.tasks[i]);
      }
    }
  }

  lemma {:induction false} DeliveredRun(run: seq<Action>)
    ensures forall i :: 0 <= i < |After(run).tasks| ==> Delivered(After(run).shared, After(run).tasks[i])
  {
    if run != [] {
      BaseRun(run[..|run| - 1]);
      DeliveredRun(run[..|run| - 1]);
      DeliveredStep(After(run[..|run| - 1]), run[|run| - 1]);
    }
  }

  /**
    Once a request whose pipeline ran is done, it has committed its pair exactly when
    nothing refused it, its transaction committed and its finalizer was not dropped; and it
    has stored its response exactly when it carried a key, the set succeeded and, off the
    fast path, generation and persistence did too. In particular a failed generation
    stores nothing, so a retry executes again. The client was told `Verdict`.
  */
  lemma DoneTaskEffects(run: seq<Action>, i: nat)
    requires i < |After(run).tasks|
    requires var t := After(run).tasks[i]; t.phase == Done && t.missedAt.Some? && t.token.Some?
    ensures var t := After(run).tasks[i];
            && (HasCommit(After(run).shared.events, t.token.value) <==> t.Commits())
            && (HasStored(After(run).shared.events, t.token.value) <==> t.Stores())
            && t.outcome == t.Verdict()
  {
    ToldRun(run);
    DeliveredRun(run);
    var w := After(run);
    assert Delivered(w.shared, w.tasks[i]);
  }

  // ------------------------------------------------------- what the client is told

  /**
    What a request whose pipeline ran is answered: the fast path's text as it is, the model's
    text or, were that empty, the standing excuse, the failure text when generation failed; a
    refusal's status, or 500 when a fast-path reply could not be saved.
  */
  ghost predicate Answered(req: Request, fate: Fate, outcome: Outcome) {
    var sid := if req.session.Some? then req.session.value else fate.created;
    var keyed := req.idem.Some? && req.idem.value != "";
    var excuse := "عذراً، لم أستطع العثور على رد مناسب حالياً. يرجى المحاولة مرة أخرى.";
    var failure := "حصلت مشكلة في توليد الرد، حاول مرة تانية";
    if req.fast.Some? then
      outcome == (if keyed && fate.saves != SaveOk then Failed(500) else Replied(Reply(req.mode, sid, req.fast.value)))
    else if fate.refusal.Some? then outcome == Failed(fate.refusal.value)
    else if fate.generated.None? then outcome == Replied(Reply(req.mode, sid, failure))
    else outcome == Replied(Reply(req.mode, sid, if fate.generated.value == "" then excuse else fate.generated.value))
  }

  /** What one event says, in terms of the request it stems from. */
  ghost predicate Says(e: Event, req: Request, fate: Fate) {
    var sid := if req.session.Some? then req.session.value else fate.created;
    match e.what
    case Committed(session, user, assistant, failed) =>
      && session == sid && user == req.message
      && (req.fast.Some? ==> assistant == req.fast.value)
      && (req.fast.None? && fate.generated.Some? ==> assistant == fate.generated.value)
      && (req.fast.None? && fate.generated.None? ==> assistant == "حصلت مشكلة في توليد الرد، حاول مرة تانية")
      && (failed <==> req.fast.None? && fate.generated.None?)
    case Stored(reply, expires) =>
      && expires == e.at + 86_400_000
      && (req.fast.Some? || fate.generated.Some?)
      && reply == Reply(req.mode, sid,
                        if req.fast.Some? then req.fast.value
                        else if fate.generated.value != "" then fate.generated.value
                        else "عذراً، لم أستطع العثور على رد مناسب حالياً. يرجى المحاولة مرة أخرى.")
    case Remembered => req.fast.Some? || fate.generated.Some?
    case _ => req.idem.Some? && req.idem.value != ""
  }

  /** A hit was read by this task. */
  ghost predicate HitBy(es: seq<Event>, t: Task, q: nat) {
    && q < |es| && t.token == Some(es[q].token) && es[q].what.Hit?
    && t.outcome == if es[q].what.reply.mode == t.req.mode then Replied(es[q].what.reply) else Failed(500)
  }

  /** Its key was looked up and kept it from its pipeline: a hit, or a store that cannot be read. */
  ghost predicate KeptOut(es: seq<Event>, t: Task) {
    && t.req.idem.Some? && t.req.idem.value != ""
    && if t.fate.readable then exists q: nat :: HitBy(es, t, q) else t.outcome == Failed(500)
  }

  /** What is known of a task whose pipeline did not run. */
  ghost predicate TurnedAway(es: seq<Event>, t: Task) {
    && (t.phase != Arrived ==> if t.fate.admitted then t.token.None? ==> t.phase == Done && t.outcome == Failed(429)
                               else t.token.None? && t.phase == Done && t.outcome == Failed(503))
    && (t.token.Some? && t.missedAt.None? && t.phase != Checking ==> KeptOut(es, t))
  }

  ghost predicate AllTurnedAway(w: World) {
    forall i :: 0 <= i < |w.tasks| ==> TurnedAway(w.shared.events, w.tasks[i])
  }

  lemma TurnedAwayExtends(es: seq<Event>, more: seq<Event>, t: Task)
    requires es <= more && TurnedAway(es, t)
    ensures TurnedAway(more, t)
  {
    if t.token.Some? && t.missedAt.None? && t.phase != Checking && t.fate.readable {
      var q: nat :| HitBy(es, t, q);
      assert HitBy(more, t, q);
    }
  }

  /** The steps after the check do not touch what it decided. */
  lemma CheckDecides(sh: Shared, t: Task)
    requires t.token.Some? && t.Holding() && Shaped(t)
    ensures var (sh', t') := StepTask(sh, t);
            && t'.phase != Checking
            && (t.phase == Checking && t'.missedAt.None? ==>
                  && t.req.idem.Some? && t.req.idem.value != ""
                  && if t.fate.readable then HitBy(sh'.events, t', |sh.events|) else t'.outcome == Failed(500))
            && (t.phase != Checking ==> t'.missedAt == t.missedAt && (t.missedAt.None? ==> t'.outcome == t.outcome))
  {
  }

  lemma TurnedAwayHolder(sh: Shared, t: Task)
    requires t.token.Some? && t.Holding() && Shaped(t) && TurnedAway(sh.events, t)
    ensures TurnedAway(StepTask(sh, t).0.events, StepTask(sh, t).1)
  {
    var (sh', t') := StepTask(sh, t);
    HolderStep(sh, t);
    CheckDecides(sh, t);
    if t.phase != Checking && t.missedAt.None? && t.fate.readable {
      var q: nat :| HitBy(sh.events, t, q);
      assert HitBy(sh'.events, t', q);
    }
  }

  lemma TurnedAwayAdmit(sh: Shared, t: Task)
    requires !t.Holding() && Shaped(t) && (t.phase == Arrived ==> t.token.None?) && TurnedAway(sh.events, t)
    ensures TurnedAway(sh.events, StepTask(sh, t).1)
  {
  }

  lemma TurnedAwayStep(w: World, a: Action)
    requires Base(w) && AllTurnedAway(w)
    ensures AllTurnedAway(Next(w, a))
  {
    var w' := Next(w, a);
    if a.Run? && a.task < |w.tasks| {
      var t := w.tasks[a.task];
      if t.Holding() {
        HolderStep(w.shared, t);
        TurnedAwayHolder(w.shared, t);
      } else {
        AdmitsQuietly(w.shared, t);
        TurnedAwayAdmit(w.shared, t);
      }
    }
    forall i | 0 <= i < |w'.tasks|
      ensures TurnedAway(w'.shared.events, w'.tasks[i])
    {
      if i < |w.tasks| && !(a.Run? && a.task == i) {
        TurnedAwayExtends(w.shared.events, w'.shared.events, w.tasks[i]);
      }
    }
  }

  lemma {:induction false} TurnedAwayRun(run: seq<Action>)
    ensures AllTurnedAway(After(run))
  {
    if run != [] {
      BaseRun(run[..|run| - 1]);
      TurnedAwayRun(run[..|run| - 1]);
      TurnedAwayStep(After(run[..|run| - 1]), run[|run| - 1]);
    }
  }

  lemma VerdictAnswers(t: Task)
    ensures Answered(t.req, t.fate, t.Verdict())
  {
  }

  /**
    What every finished request was told. Not admitted: 503. Lock taken: 429. With a key whose
    store cannot be read: 500. Hit: the stored reply, or 500 if it is of the other response
    class. Otherwise its pipeline ran, and it was told what `Answered` says.
  */
  lemma ClientIsTold(run: seq<Action>, i: nat)
    requires i < |After(run).tasks| && After(run).tasks[i].phase == Done
    ensures var t, es := After(run).tasks[i], After(run).shared.events;
            if !t.fate.admitted then t.token.None? && t.outcome == Failed(503)
            else if t.token.None? then t.outcome == Failed(429)
            else if t.missedAt.Some? then Answered(t.req, t.fate, t.outcome)
            else KeptOut(es, t)
  {
    BaseRun(run);
    TurnedAwayRun(run);
    var t := After(run).tasks[i];
    assert Shaped(t) && TurnedAway(After(run).shared.events, t);
    VerdictAnswers(t);
  }

  /** Every commit and every stored reply says what the request it stems from would have it say. */
  lemma EffectsSay(run: seq<Action>, p: nat) returns (i: nat)
    requires p < |After(run).shared.events|
    ensures var e := After(run).shared.events[p];
            && i < |After(run).tasks| && After(run).tasks[i].token == Some(e.token)
            && var req := After(run).tasks[i].req;
               && e.key == req.idem && e.lock == (if req.session.Some? then req.session.value else req.user)
               && Says(e, req, After(run).tasks[i].fate)
  {
    ToldRun(run);
    var w := After(run);
    assert HasTask(w.tasks, w.shared.events[p].token);
    i :| 0 <= i < |w.tasks| && w.tasks[i].token == Some(w.shared.events[p].token);
    FaithfulSays(w.shared.events[p], w.tasks[i]);
  }

  lemma FaithfulSays(e: Event, t: Task)
    requires Faithful(e, t)
    ensures Says(e, t.req, t.fate)
  {
  }

  // --------------------------------------------------------------- the SQL log

  datatype Row = UserRow(content: string) | AssistantRow(content: string)

  /** The message table: each commit appends its two rows at once. */
  function Table(events: seq<Event>): seq<(string, Row)> {
    if events == [] then []
    else
      var rest, e := Table(events[..|events| - 1]), events[|events| - 1];
      if e.what.Committed? then
        rest + [(e.what.session, UserRow(e.what.user)), (e.what.session, AssistantRow(e.what.assistant))]
      else rest
  }

  /** One session's part of the table. */
  function RowsOf(table: seq<(string, Row)>, session: string): seq<Row> {
    if table == [] then []
    else
      var rest, r := RowsOf(table[..|table| - 1], session), table[|table| - 1];
      if r.0 == session then rest + [r.1] else rest
  }

  /** The commits into one session's message table, in commit order. */
  function CommitsOf(events: seq<Event>, session: string): seq<Event> {
    if events == [] then []
    else
      var rest := CommitsOf(events[..|events| - 1], session);
      var e := events[|events| - 1];
      if e.what.Committed? && e.what.session == session then rest + [e] else rest
  }

  /** The pairs, flattened: each commit adds the user's row and the assistant's row together. */
  function SqlRows(commits: seq<Event>): seq<Row>
    requires forall p :: 0 <= p < |commits| ==> commits[p].what.Committed?
  {
    if commits == [] then []
    else
      var e := commits[|commits| - 1];
      SqlRows(commits[..|commits| - 1]) + [UserRow(e.what.user), AssistantRow(e.what.assistant)]
  }

  lemma {:induction false} CommitsAreEvents(events: seq<Event>, session: string)
    ensures forall p :: 0 <= p < |CommitsOf(events, session)| ==>
              var c := CommitsOf(events, session)[p];
              c in events && c.what.Committed? && c.what.session == session
  {
    if events != [] {
      CommitsAreEvents(events[..|events| - 1], session);
    }
  }

  /** In the order in which their requests acquired the lock. */
  ghost predicate InLockOrder(cs: seq<Event>) {
    forall p, q :: 0 <= p < q < |cs| ==> cs[p].token < cs[q].token
  }

  lemma {:induction false} CommitsInOrder(events: seq<Event>, session: string, lock: string)
    requires forall p :: 0 <= p < |events| && events[p].what.Committed? && events[p].what.session == session ==>
               events[p].lock == lock
    requires forall p, q :: 0 <= p < q < |events| && events[p].lock == lock && events[q].lock == lock ==>
               events[p].token <= events[q].token
    requires forall p, q :: 0 <= p < q < |events| && events[p].what.Committed? && events[q].what.Committed? ==>
               events[p].token != events[q].token
    ensures InLockOrder(CommitsOf(events, session))
  {
    if events != [] {
      var n := |events| - 1;
      var head, e, cs := events[..n], events[n], CommitsOf(events[..n], session);
      assert forall p :: 0 <= p < n ==> head[p] == events[p];
      CommitsInOrder(head, session, lock);
      CommitsAreEvents(head, session);
      if e.what.Committed? && e.what.session == session {
        forall p | 0 <= p < |cs|
          ensures cs[p].token < e.token
        {
          assert cs[p] in head && cs[p].what.Committed? && cs[p].what.session == session;
          var h :| 0 <= h < n && head[h] == cs[p];
          assert events[h] == cs[p];
          assert events[h].token <= events[n].token && events[h].token != events[n].token;
        }
      }
    }
  }

  /** The rows are the commits' pairs: user first, assistant next, nothing in between. */
  ghost predicate PairedRows(rows: seq<Row>, cs: seq<Event>) {
    && |rows| == 2 * |cs|
    && forall p :: 0 <= p < |cs| ==>
         && cs[p].what.Committed?
         && rows[2 * p] == UserRow(cs[p].what.user)
         && rows[2 * p + 1] == AssistantRow(cs[p].what.assistant)
  }

  lemma {:induction false} RowsComeInPairs(cs: seq<Event>)
    requires forall p :: 0 <= p < |cs| ==> cs[p].what.Committed?
    ensures PairedRows(SqlRows(cs), cs)
  {
    if cs != [] {
      RowsComeInPairs(cs[..|cs| - 1]);
    }
  }

  lemma RowsOfTwo(table: seq<(string, Row)>, a: (string, Row), b: (string, Row), session: string)
    ensures RowsOf(table + [a, b], session)
            == RowsOf(table, session) + (if a.0 == session then [a.1] else []) + (if b.0 == session then [b.1] else [])
  {
    assert (table + [a, b])[..|table| + 1] == table + [a];
    assert (table + [a])[..|table|] == table;
  }

  lemma {:induction false} TableIsPairs(events: seq<Event>, session: string)
    ensures forall p :: 0 <= p < |CommitsOf(events, session)| ==> CommitsOf(events, session)[p].what.Committed?
    ensures RowsOf(Table(events), session) == SqlRows(CommitsOf(events, session))
  {
    CommitsAreEvents(events, session);
    if events != [] {
      var head, e := events[..|events| - 1], events[|events| - 1];
      TableIsPairs(head, session);
      if e.what.Committed? {
        RowsOfTwo(Table(head), (e.what.session, UserRow(e.what.user)),
            (e.what.session, AssistantRow(e.what.assistant)), session);
        assert (CommitsOf(head, session) + [e])[..|CommitsOf(head, session)|] == CommitsOf(head, session);
      }
    }
  }

  /** The commit `c` is the pair of task `t`. */
  ghost predicate PairOf(c: Event, t: Task, session: string) {
    && t.token == Some(c.token) && t.Session() == session && t.Commits()
    && c.what.Committed? && c.what.user == t.req.message && c.what.assistant == t.Content()
  }

  /** All requests that write the session take the same lock. */
  ghost predicate OneLock(tasks: seq<Task>, session: string, lock: string) {
    forall i :: 0 <= i < |tasks| && tasks[i].Session() == session ==> tasks[i].LockName() == lock
  }

  lemma CommitHasTask(w: World, session: string, lock: string, p: nat)
    requires Base(w) && Told(w) && OneLock(w.tasks, session, lock)
    requires p < |w.shared.events| && w.shared.events[p].what.Committed? && w.shared.events[p].what.session == session
    ensures w.shared.events[p].lock == lock
    ensures exists i :: 0 <= i < |w.tasks| && PairOf(w.shared.events[p], w.tasks[i], session)
  {
    assert HasTask(w.tasks, w.shared.events[p].token);
    var i :| 0 <= i < |w.tasks| && w.tasks[i].token == Some(w.shared.events[p].token);
    assert Faithful(w.shared.events[p], w.tasks[i]);
    assert PairOf(w.shared.events[p], w.tasks[i], session);
  }

  /** Every row pair of the session stems from one committing request, in lock order. */
  ghost predicate StrictlyOrdered(w: World, session: string) {
    var cs := CommitsOf(w.shared.events, session);
    && InLockOrder(cs)
    && (forall c :: c in cs ==> exists i :: 0 <= i < |w.tasks| && PairOf(c, w.tasks[i], session))
    && PairedRows(RowsOf(Table(w.shared.events), session), cs)
  }

  /**
    Strict message ordering. If all requests that write a session take the same lock, then at
    any point of any timely run its message table is a concatenation of whole pairs, one per
    committing request, in the order in which those requests acquired the lock.
  */
  lemma SqlLogInLockOrder(run: seq<Action>, session: string, lock: string)
    requires TimelyRun(run) && OneLock(After(run).tasks, session, lock)
    ensures StrictlyOrdered(After(run), session)
  {
    ToldRun(run);
    TimelyRunIsSafe(run);
    var w := After(run);
    CommitsAreEvents(w.shared.events, session);
    forall p | 0 <= p < |w.shared.events| && w.shared.events[p].what.Committed?
        && w.shared.events[p].what.session == session
      ensures w.shared.events[p].lock == lock
      ensures exists i :: 0 <= i < |w.tasks| && PairOf(w.shared.events[p], w.tasks[i], session)
    {
      CommitHasTask(w, session, lock, p);
    }
    CommitsInOrder(w.shared.events, session, lock);
    TableIsPairs(w.shared.events, session);
    RowsComeInPairs(CommitsOf(w.shared.events, session));
  }

  /** In particular when they all name the session: each then locks it. */
  lemma NamedSessionIsOrdered(run: seq<Action>, session: string)
    requires TimelyRun(run)
    requires forall i :: 0 <= i < |After(run).tasks| && After(run).tasks[i].Session() == session ==>
               After(run).tasks[i].req.session == Some(session)
    ensures StrictlyOrdered(After(run), session)
  {
    SqlLogInLockOrder(run, session, session);
  }

  // --------------------------------------------------------------- idempotency

  ghost predicate HomedTasks(home: string -> string, w: World) {
    forall i :: 0 <= i < |w.tasks| && w.tasks[i].req.Keyed() ==>
      w.tasks[i].LockName() == home(w.tasks[i].req.idem.value)
  }

  ghost predicate StoredUnder(e: Event, key: string) {
    e.what.Stored? && e.key == Some(key)
  }

  /** A stored result stays in place until it expires. */
  ghost predicate Kept(w: World) {
    forall p :: 0 <= p < |w.shared.events| && w.shared.events[p].what.Stored?
                && w.shared.store.now < w.shared.events[p].what.expires ==>
      var e := w.shared.events[p];
      && e.key.Some? && IdemResult(e.key.value) in w.shared.store.data
      && w.shared.store.data[IdemResult(e.key.value)] == Entry(Saved(e.what.reply), Some(e.what.expires))
  }

  /** A task on its way to a save let itself in only after every earlier result had expired. */
  ghost predicate Cleared(w: World) {
    forall i, p :: 0 <= i < |w.tasks| && w.tasks[i].Holding() && w.tasks[i].req.Keyed() && BeforeSave(w.tasks[i])
                   && w.tasks[i].missedAt.Some? && 0 <= p < |w.shared.events|
                   && StoredUnder(w.shared.events[p], w.tasks[i].req.idem.value) ==>
      w.shared.events[p].what.expires <= w.tasks[i].missedAt.value <= w.shared.store.now
  }

  /** While a result is stored, checks of its key hit it. */
  ghost predicate Served(events: seq<Event>) {
    forall p, q :: 0 <= p < q < |events| && events[p].what.Stored? && events[q].key == events[p].key
                   && events[q].at < events[p].what.expires ==>
      && events[q].what != Missed
      && (events[q].what.Hit? ==> events[q].what.reply == events[p].what.reply)
  }

  ghost predicate Idempotent(home: string -> string, w: World) {
    HomedTasks(home, w) && Kept(w) && Cleared(w) && Served(w.shared.events)
  }

  /** What a holder's step does to stored results: only its own save replaces one, with what it logs. */
  lemma HolderResult(sh: Shared, t: Task)
    requires t.token.Some? && t.Holding()
    ensures ResultsKept(sh, StepTask(sh, t).0, t)
  {
  }

  ghost predicate ResultsKept(sh: Shared, sh': Shared, t: Task) {
    && (forall k: string :: IdemResult(k) in sh.store.data ==>
          || (IdemResult(k) in sh'.store.data && sh'.store.data[IdemResult(k)] == sh.store.data[IdemResult(k)])
          || (t.req.idem == Some(k) && |sh'.events| > |sh.events| && sh'.events[|sh.events|].what.Stored?))
    && (|sh'.events| > |sh.events| && sh'.events[|sh.events|].what.Stored? ==>
          && t.req.Keyed() && IdemResult(t.req.idem.value) in sh'.store.data
          && sh'.store.data[IdemResult(t.req.idem.value)]
             == Entry(Saved(sh'.events[|sh.events|].what.reply), Some(sh'.events[|sh.events|].what.expires)))
  }

  /** At most one event, under the task's own name and key, at the present moment. */
  ghost predicate OneMore(sh: Shared, sh': Shared, t: Task) {
    && t.token.Some? && sh'.store.now == sh.store.now
    && (sh'.events == sh.events
        || (|sh'.events| == |sh.events| + 1
            && sh'.events == sh.events + [Event(t.token.value, t.LockName(), t.req.idem, sh.store.now,
                sh'.events[|sh.events|].what)]))
  }

  lemma KeptGrows(w: World, i: nat, sh': Shared)
    requires Kept(w) && Cleared(w) && i < |w.tasks| && w.tasks[i].Holding()
    requires OneMore(w.shared, sh', w.tasks[i]) && ResultsKept(w.shared, sh', w.tasks[i])
    requires |sh'.events| > |w.shared.events| && sh'.events[|w.shared.events|].what.Stored? ==>
               BeforeSave(w.tasks[i]) && w.tasks[i].missedAt.Some?
    ensures Kept(w.(shared := sh'))
  {
  }

  lemma KeptStep(home: string -> string, w: World, a: Action)
    requires Base(w) && Once(w) && Idempotent(home, w)
    ensures Kept(Next(w, a))
  {
    if a.Run? && a.task < |w.tasks| && w.tasks[a.task].Holding() {
      HolderStep(w.shared, w.tasks[a.task]);
      HolderEvent(w.shared, w.tasks[a.task]);
      HolderResult(w.shared, w.tasks[a.task]);
      KeptGrows(w, a.task, StepTask(w.shared, w.tasks[a.task]).0);
    }
  }

  /** A task's miss is new only when its check found no live result, at that moment. */
  ghost predicate MissesTruly(sh: Shared, t: Task, t': Task) {
    t'.missedAt == t.missedAt
    || (t'.missedAt == Some(sh.store.now)
        && (t.req.Keyed() ==> forall r: Reply :: !sh.store.Has(IdemResult(t.req.idem.value), Saved(r))))
  }

  lemma HolderMiss(sh: Shared, t: Task)
    requires t.token.Some? && t.Holding()
    ensures MissesTruly(sh, t, StepTask(sh, t).1)
  {
  }

  lemma ClearedGrows(w: World, i: nat, sh': Shared, t': Task)
    requires Base(w) && Exclusive(w) && Kept(w) && Cleared(w) && i < |w.tasks| && w.tasks[i].Holding()
    requires OneMore(w.shared, sh', w.tasks[i]) && MissesTruly(w.shared, w.tasks[i], t')
    requires t'.req == w.tasks[i].req && (BeforeSave(t') ==> BeforeSave(w.tasks[i]))
    requires |sh'.events| > |w.shared.events| && sh'.events[|w.shared.events|].what.Stored? ==> !BeforeSave(t')
    requires forall j :: 0 <= j < |w.tasks| && j != i && w.tasks[j].Holding() && w.tasks[j].req.Keyed() ==>
               w.tasks[j].req.idem != w.tasks[i].req.idem
    ensures Cleared(World(sh', w.tasks[i := t']))
  {
  }

  /** Two holders never carry the same key: their locks would be the same. */
  lemma KeysApart(home: string -> string, w: World, i: nat, j: nat)
    requires Tokens(w) && Exclusive(w) && HomedTasks(home, w) && i < |w.tasks| && j < |w.tasks| && i != j
    requires w.tasks[i].Holding() && w.tasks[j].Holding() && w.tasks[j].req.Keyed()
    ensures w.tasks[j].req.idem != w.tasks[i].req.idem
  {
    OneHolder(w, i, j);
  }

  lemma ClearedHolder(home: string -> string, w: World, i: nat)
    requires Base(w) && Exclusive(w) && Idempotent(home, w) && i < |w.tasks| && w.tasks[i].Holding()
    ensures Cleared(Next(w, Run(i)))
  {
    HolderStep(w.shared, w.tasks[i]);
    HolderEvent(w.shared, w.tasks[i]);
    HolderMiss(w.shared, w.tasks[i]);
    forall j | 0 <= j < |w.tasks| && j != i && w.tasks[j].Holding() && w.tasks[j].req.Keyed()
      ensures w.tasks[j].req.idem != w.tasks[i].req.idem
    {
      KeysApart(home, w, i, j);
    }
    ClearedGrows(w, i, StepTask(w.shared, w.tasks[i]).0, StepTask(w.shared, w.tasks[i]).1);
  }

  /** Time, arrivals and admissions store nothing and let nobody in past a check. */
  lemma ClearedOther(w: World, a: Action)
    requires Cleared(w) && Tokens(w) && !(a.Run? && a.task < |w.tasks| && w.tasks[a.task].Holding())
    requires forall i :: 0 <= i < |w.tasks| ==> Shaped(w.tasks[i])
    ensures Cleared(Next(w, a))
  {
    if a.Run? && a.task < |w.tasks| {
      AdmitsQuietly(w.shared, w.tasks[a.task]);
    }
  }

  lemma ClearedStep(home: string -> string, w: World, a: Action)
    requires Base(w) && Exclusive(w) && Idempotent(home, w)
    ensures Cleared(Next(w, a))
  {
    if a.Run? && a.task < |w.tasks| && w.tasks[a.task].Holding() {
      ClearedHolder(home, w, a.task);
    } else {
      ClearedOther(w, a);
    }
  }

  lemma ServedStep(home: string -> string, w: World, a: Action)
    requires Base(w) && Once(w) && Idempotent(home, w)
    ensures Served(Next(w, a).shared.events)
  {
    if a.Run? && a.task < |w.tasks| && w.tasks[a.task].Holding() {
      HolderStep(w.shared, w.tasks[a.task]);
    }
  }

  lemma HomedStep(home: string -> string, w: World, a: Action)
    requires HomedTasks(home, w)
    requires a.Arrive? && a.req.Keyed() ==> a.req.LockName() == home(a.req.idem.value)
    ensures HomedTasks(home, Next(w, a))
  {
  }

  lemma IdempotentStep(home: string -> string, w: World, a: Action)
    requires Base(w) && Exclusive(w) && Told(w) && Idempotent(home, w)
    requires a.Arrive? && a.req.Keyed() ==> a.req.LockName() == home(a.req.idem.value)
    ensures Idempotent(home, Next(w, a))
  {
    HomedStep(home, w, a);
    KeptStep(home, w, a);
    ClearedStep(home, w, a);
    ServedStep(home, w, a);
  }

  lemma {:induction false} IdempotentRun(home: string -> string, run: seq<Action>)
    requires TimelyRun(run) && Homed(home, run)
    ensures Idempotent(home, After(run))
  {
    if run != [] {
      var n := |run| - 1;
      var head := run[..n];
      TimelyPrefix(run);
      assert Homed(home, head) by {
        assert forall i :: 0 <= i < n ==> head[i] == run[i];
      }
      IdempotentRun(home, head);
      ToldRun(head);
      TimelyRunIsSafe(head);
      IdempotentStep(home, After(head), run[n]);
    }
  }

  /** An effect that follows a stored result belongs to the storing task, or its own miss came later still. */
  lemma MissFollows(es: seq<Event>, p: nat, q: nat)
    requires p < q < |es| && MissedBefore(es, es[q].token, q) && es[q].token != es[p].token
    requires forall a, b :: 0 <= a < b < |es| && es[a].lock == es[b].lock ==> es[a].token <= es[b].token
    requires forall a, b :: 0 <= a < b < |es| ==> es[a].at <= es[b].at
    requires forall a, b :: 0 <= a < |es| && 0 <= b < |es| && es[a].token == es[b].token ==>
               es[a].lock == es[b].lock && es[a].key == es[b].key
    requires es[p].lock == es[q].lock
    ensures exists m :: p < m < q && es[m].what == Missed && es[m].key == es[q].key && es[m].at <= es[q].at
  {
    var m :| 0 <= m < q && es[m].token == es[q].token && es[m].what == Missed;
    assert es[m].lock == es[q].lock && es[m].key == es[q].key;
    assert !(m < p);
  }

  lemma OneTaskPerToken(w: World, a: nat, b: nat)
    requires Base(w) && Sourced(w)
    requires a < |w.shared.events| && b < |w.shared.events| && w.shared.events[a].token == w.shared.events[b].token
    ensures w.shared.events[a].lock == w.shared.events[b].lock && w.shared.events[a].key == w.shared.events[b].key
  {
    assert HasTask(w.tasks, w.shared.events[a].token);
  }

  lemma EventIsHomed(home: string -> string, w: World, p: nat)
    requires Base(w) && Told(w) && HomedTasks(home, w)
    requires p < |w.shared.events| && w.shared.events[p].key.Some? && w.shared.events[p].key.value != ""
    ensures w.shared.events[p].lock == home(w.shared.events[p].key.value)
  {
    assert HasTask(w.tasks, w.shared.events[p].token);
  }

  /**
    Once event `p` has stored a result, then until it expires no check of its key misses, each
    read returns that response, and nothing is committed or stored under the key by another.
  */
  ghost predicate Final(es: seq<Event>, p: nat, q: nat)
    requires p < |es| && q < |es|
  {
    es[p].what.Stored? && es[q].key == es[p].key && es[q].at < es[p].what.expires ==>
      && es[q].what != Missed
      && (es[q].what.Hit? ==> es[q].what.reply == es[p].what.reply)
      && (Effect(es[q]) ==> es[q].token == es[p].token)
  }

  ghost predicate SingleExecution(es: seq<Event>) {
    forall p, q :: 0 <= p < q < |es| ==> Final(es, p, q)
  }

  lemma TokensNameOne(w: World)
    requires Base(w) && Sourced(w)
    ensures forall a, b :: 0 <= a < |w.shared.events| && 0 <= b < |w.shared.events|
                           && w.shared.events[a].token == w.shared.events[b].token ==>
              w.shared.events[a].lock == w.shared.events[b].lock && w.shared.events[a].key == w.shared.events[b].key
  {
    forall a, b | 0 <= a < |w.shared.events| && 0 <= b < |w.shared.events|
        && w.shared.events[a].token == w.shared.events[b].token
      ensures w.shared.events[a].lock == w.shared.events[b].lock && w.shared.events[a].key == w.shared.events[b].key
    {
      OneTaskPerToken(w, a, b);
    }
  }

  /** An effect under the key of an unexpired result belongs to whoever stored it. */
  lemma EffectIsOwn(home: string -> string, w: World, p: nat, q: nat)
    requires Base(w) && Told(w) && Serial(w) && HomedTasks(home, w) && Served(w.shared.events)
    requires p < q < |w.shared.events|
    requires var es := w.shared.events;
             es[p].what.Stored? && es[q].key == es[p].key && es[q].at < es[p].what.expires && Effect(es[q])
    ensures w.shared.events[q].token == w.shared.events[p].token
  {
    var es := w.shared.events;
    assert HasTask(w.tasks, es[p].token);
    assert es[p].key.Some? && es[p].key.value != "";
    if es[q].token != es[p].token {
      EventIsHomed(home, w, p);
      EventIsHomed(home, w, q);
      TokensNameOne(w);
      MissFollows(es, p, q);
      assert false;
    }
  }

  /**
    Single execution per key: in every timely run in which each key has one home lock, a
    stored result is final until it expires.
  */
  lemma NoSecondExecution(home: string -> string, run: seq<Action>)
    requires TimelyRun(run) && Homed(home, run)
    ensures SingleExecution(After(run).shared.events)
  {
    IdempotentRun(home, run);
    ToldRun(run);
    TimelyRunIsSafe(run);
    var w := After(run);
    var es := w.shared.events;
    forall p, q | 0 <= p < q < |es|
      ensures Final(es, p, q)
    {
      if es[p].what.Stored? && es[q].key == es[p].key && es[q].at < es[p].what.expires && Effect(es[q]) {
        EffectIsOwn(home, w, p, q);
      }
    }
  }
}
