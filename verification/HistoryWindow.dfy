/**
  One session's history window over any run of reads, refills, interactions, expiries and
  deletions, and exactly when it is the end of the message table. Rows are tracked by the
  order in which they were ever written, so repeated messages make no difference.
*/
module HistoryWindow {
  import opened ChatMemory
  import opened PySlices
  import opened RedisModel
  import opened Wrappers
  import SessionProtocol
  import SessionTheorems

  datatype Action =
    | Tick(ms: nat)
    | Read(readable: bool)          // a window absent or unreadable launches a refill with the table's oldest rows
    | Land(i: nat)                  // a launched refill arrives, any time later
    | Succeed(e: Exchange)          // rows committed, window extended
    | FailGeneration(e: Exchange)   // rows committed, the window is not told
    | LoseUpdate(e: Exchange)       // rows committed, the window's update raised
    | CreateSession
    | DeleteSession                 // the rows go along, but other keys than the window's are cleared

  /** A launched refill, and the part of the log that was the table then. */
  datatype Refill = Refill(turns: seq<Turn>, from: nat, seen: nat)

  /**
    What the window stems from: the refill that landed last, where the table began and ended
    in the log when it was launched (`from`, `seen`), where the log ended when it landed, the
    exchanges since; and the rows no window was told of.
  */
  datatype Ledger = Ledger(base: seq<Turn>, from: nat, seen: nat, landed: nat, since: seq<Exchange>, untold: set<nat>)

  /** `log` holds every row ever written; the table is what was written since the last deletion. */
  datatype Memory = Memory(
    store: Store,
    log: seq<Turn>,
    start: nat,
    present: bool,
    warming: seq<Refill>,
    ledger: Ledger)
  {
    function Table(): seq<Turn> {
      if start <= |log| then log[start..] else []
    }
  }

  function Init(): Memory {
    Memory(Store(0, map[]), [], 0, false, [], Ledger([], 0, 0, 0, [], {}))
  }

  function Commit(m: Memory, e: Exchange): Memory {
    m.(log := m.log + e.Turns())
  }

  /** Rows committed without the window hearing of them. */
  function CommitUntold(m: Memory, e: Exchange): Memory {
    Commit(m, e).(ledger := m.ledger.(untold := m.ledger.untold + {|m.log|, |m.log| + 1}))
  }

  /** Without its session row no message can be written, and nothing else is done. */
  function Next(s: string, n: nat, m: Memory, a: Action): Memory {
    match a
    case Tick(ms) => m.(store := m.store.Advance(ms))
    case Read(readable) =>
      if readable && CachedIn(m.store, s).Some? then m
      else m.(warming := m.warming + [Refill(Oldest(m.Table(), n), m.start, |m.log|)])
    case Land(i) =>
      if i < |m.warming| then
        var r := m.warming[i];
        m.(store := Refilled(m.store, s, r.turns), warming := m.warming[..i] + m.warming[i + 1..],
           ledger := m.ledger.(base := r.turns, from := r.from, seen := r.seen, landed := |m.log|, since := []))
      else m
    case Succeed(e) =>
      if !m.present then m
      else Commit(m, e).(store := Extended(m.store, s, e, n), ledger := m.ledger.(since := m.ledger.since + [e]))
    case FailGeneration(e) => if m.present then CommitUntold(m, e) else m
    case LoseUpdate(e) => if m.present then CommitUntold(m, e) else m
    case CreateSession => m.(present := true)
    case DeleteSession => if m.present then m.(present := false, start := |m.log|) else m
  }

  function After(s: string, n: nat, run: seq<Action>): Memory {
    if run == [] then Init() else Next(s, n, After(s, n, run[..|run| - 1]), run[|run| - 1])
  }

  // ------------------------------------------------------- what an exchange writes

  lemma AfterOne(s: string, n: nat, run: seq<Action>, a: Action)
    ensures After(s, n, run + [a]) == Next(s, n, After(s, n, run), a)
  {
    assert (run + [a])[..|run|] == run;
  }

  lemma FlattenSnoc(es: seq<Exchange>, e: Exchange)
    ensures Flatten(es + [e]) == Flatten(es) + e.Turns()
  {
    assert (es + [e])[..|es|] == es;
  }

  lemma ExtendedCached(store: Store, s: string, e: Exchange, n: nat)
    ensures CachedIn(Extended(store, s, e, n), s)
            == (match CachedIn(store, s) case Some(turns) => Some(Last(turns + e.Turns(), n)) case None => None)
  {
  }

  predicate Commits(a: Action) {
    a.Succeed? || a.FailGeneration? || a.LoseUpdate?
  }

  lemma StartStays(s: string, n: nat, m: Memory, a: Action)
    requires m.start <= |m.log|
    ensures Next(s, n, m, a).start <= |Next(s, n, m, a).log|
  {
  }

  lemma {:induction false} StartWithin(s: string, n: nat, run: seq<Action>)
    ensures After(s, n, run).start <= |After(s, n, run).log|
  {
    if run != [] {
      StartWithin(s, n, run[..|run| - 1]);
      StartStays(s, n, After(s, n, run[..|run| - 1]), run[|run| - 1]);
    }
  }

  lemma StepRows(s: string, n: nat, m: Memory, a: Action)
    requires Commits(a) && m.present && m.start <= |m.log|
    ensures Next(s, n, m, a).Table() == m.Table() + [Turn("user", a.e.user), Turn("assistant", a.e.assistant)]
  {
  }

  /** A committed exchange puts the user's row and then the assistant's at the end of the table, roles included. */
  lemma ExchangeRows(s: string, n: nat, run: seq<Action>, a: Action)
    requires Commits(a) && After(s, n, run).present
    ensures After(s, n, run + [a]).Table()
            == After(s, n, run).Table() + [Turn("user", a.e.user), Turn("assistant", a.e.assistant)]
  {
    AfterOne(s, n, run, a);
    StartWithin(s, n, run);
    StepRows(s, n, After(s, n, run), a);
  }

  /** A window that is told of an exchange ends with it. */
  lemma ToldOfExchange(s: string, n: nat, run: seq<Action>, e: Exchange)
    requires After(s, n, run).present && CachedIn(After(s, n, run).store, s).Some?
    ensures var w, w' := CachedIn(After(s, n, run).store, s), CachedIn(After(s, n, run + [Succeed(e)]).store, s);
            w'.Some? && EndsWith(w'.value, w.value, e, n)
  {
    AfterOne(s, n, run, Succeed(e));
    ExtendedCached(After(s, n, run).store, s, e, n);
    LastEndsWith(CachedIn(After(s, n, run).store, s).value, e, n);
  }

  /** The message table of the session protocol, as turns. */
  function AsTurns(rows: seq<SessionTheorems.Row>): (r: seq<Turn>)
    ensures |r| == |rows| && forall i :: 0 <= i < |r| ==>
        r[i] == (match rows[i] case UserRow(c) => Turn("user", c) case AssistantRow(c) => Turn("assistant", c))
  {
    seq(|rows|, i requires 0 <= i < |rows| =>
      match rows[i] case UserRow(c) => Turn("user", c) case AssistantRow(c) => Turn("assistant", c))
  }

  function Exchanges(commits: seq<SessionProtocol.Event>): seq<Exchange>
    requires forall p :: 0 <= p < |commits| ==> commits[p].what.Committed?
  {
    if commits == [] then []
    else
      var e := commits[|commits| - 1];
      Exchanges(commits[..|commits| - 1]) + [Exchange(e.what.user, e.what.assistant)]
  }

  /** The protocol's table and this one agree: a session's rows are its commits' exchanges, laid end to end. */
  lemma {:induction false} CommitsAreExchanges(commits: seq<SessionProtocol.Event>)
    requires forall p :: 0 <= p < |commits| ==> commits[p].what.Committed?
    ensures AsTurns(SessionTheorems.SqlRows(commits)) == Flatten(Exchanges(commits))
  {
    if commits != [] {
      var head, e := commits[..|commits| - 1], commits[|commits| - 1];
      CommitsAreExchanges(head);
      FlattenSnoc(Exchanges(head), Exchange(e.what.user, e.what.assistant));
    }
  }

  lemma TableIsExchanges(events: seq<SessionProtocol.Event>, s: string)
    ensures forall p :: 0 <= p < |SessionTheorems.CommitsOf(events, s)| ==>
              SessionTheorems.CommitsOf(events, s)[p].what.Committed?
    ensures AsTurns(SessionTheorems.RowsOf(SessionTheorems.Table(events), s))
            == Flatten(Exchanges(SessionTheorems.CommitsOf(events, s)))
  {
    SessionTheorems.TableIsPairs(events, s);
    CommitsAreExchanges(SessionTheorems.CommitsOf(events, s));
  }

  // -------------------------------------------------------------- positions in the log

  function Range(lo: nat, hi: nat): (r: seq<nat>)
    ensures |r| == (if lo < hi then hi - lo else 0) && forall i :: 0 <= i < |r| ==> r[i] == lo + i
  {
    if lo >= hi then [] else Range(lo, hi - 1) + [hi - 1]
  }

  function Min(a: nat, b: nat): nat {
    if a < b then a else b
  }

  /** The rows the window was ever told of, up to a position: the refill's, then those since it landed. */
  function Told(l: Ledger, n: nat, upto: nat): seq<nat> {
    if upto <= l.landed then Range(l.from, Min(l.from + n, l.seen))
    else Told(l, n, upto - 1) + (if upto - 1 in l.untold then [] else [upto - 1])
  }

  ghost predicate Ascending(ps: seq<nat>, bound: nat) {
    && (forall i :: 0 <= i < |ps| ==> ps[i] < bound)
    && (forall i, j :: 0 <= i < j < |ps| ==> ps[i] < ps[j])
  }

  lemma {:induction false} ToldMeaning(l: Ledger, n: nat, upto: nat)
    requires l.seen <= l.landed <= upto
    ensures Ascending(Told(l, n, upto), upto)
    ensures forall p: nat :: p in Told(l, n, upto) <==>
              p < upto && if p < l.landed then l.from <= p < Min(l.from + n, l.seen) else p !in l.untold
  {
    if upto <= l.landed {
      var hi := Min(l.from + n, l.seen);
      forall p: nat | l.from <= p < hi ensures p in Range(l.from, hi) {
        assert Range(l.from, hi)[p - l.from] == p;
      }
    } else {
      ToldMeaning(l, n, upto - 1);
    }
  }

  function RowsAt(log: seq<Turn>, ps: seq<nat>): (r: seq<Turn>)
    requires forall i :: 0 <= i < |ps| ==> ps[i] < |log|
    ensures |r| == |ps| && forall i :: 0 <= i < |ps| ==> r[i] == log[ps[i]]
  {
    seq(|ps|, i requires 0 <= i < |ps| => log[ps[i]])
  }

  // ------------------------------------------------------------------- the invariant

  /** The refill was the oldest rows of a table the session had. */
  ghost predicate OldestOf(m: Memory, turns: seq<Turn>, from: nat, seen: nat, n: nat) {
    from <= seen <= |m.log| && (from == m.start || seen <= m.start) && turns == Oldest(m.log[from..seen], n)
  }

  /** The ledger and the launched refills speak of rows there were. */
  ghost predicate Sound(m: Memory, n: nat) {
    && m.start <= |m.log| && m.ledger.seen <= m.ledger.landed <= |m.log|
    && OldestOf(m, m.ledger.base, m.ledger.from, m.ledger.seen, n)
    && (forall p :: p in m.ledger.untold ==> p < |m.log|)
    && (forall i :: 0 <= i < |m.warming| ==>
          OldestOf(m, m.warming[i].turns, m.warming[i].from, m.warming[i].seen, n))
  }

  /** The end of what it was told, which is the refill and the exchanges since. */
  ghost predicate EndOfTold(window: seq<Turn>, l: Ledger, log: seq<Turn>, n: nat) {
    && Ascending(Told(l, n, |log|), |log|)
    && RowsAt(log, Told(l, n, |log|)) == l.base + Flatten(l.since)
    && window == Last(l.base + Flatten(l.since), n)
  }

  ghost predicate Tracked(s: string, n: nat, m: Memory) {
    Sound(m, n) && (CachedIn(m.store, s).Some? ==> EndOfTold(CachedIn(m.store, s).value, m.ledger, m.log, n))
  }

  lemma ToldIsUntouched(l: Ledger, l': Ledger, n: nat, upto: nat)
    requires l'.from == l.from && l'.seen == l.seen && l'.landed == l.landed && forall p: nat :: p < upto ==>
        (p in l'.untold <==> p in l.untold)
    ensures Told(l', n, upto) == Told(l, n, upto)
  {
  }

  lemma RowsExtend(log: seq<Turn>, more: seq<Turn>, ps: seq<nat>)
    requires log <= more && forall i :: 0 <= i < |ps| ==> ps[i] < |log|
    ensures RowsAt(more, ps) == RowsAt(log, ps)
  {
  }

  lemma SoundCommit(m: Memory, n: nat, e: Exchange)
    requires Sound(m, n)
    ensures Sound(Commit(m, e), n) && Sound(CommitUntold(m, e), n)
  {
    var more := m.log + e.Turns();
    forall j: nat, k: nat | j <= k <= |m.log| ensures more[j..k] == m.log[j..k] {
    }
  }

  /** Two more rows, both told. */
  lemma ToldTwoMore(l: Ledger, n: nat, log: seq<Turn>, e: Exchange)
    requires l.seen <= l.landed <= |log| && Ascending(Told(l, n, |log|), |log|)
    requires forall p :: p in l.untold ==> p < |log|
    ensures var more := log + e.Turns();
            && Ascending(Told(l, n, |more|), |more|)
            && RowsAt(more, Told(l, n, |more|)) == RowsAt(log, Told(l, n, |log|)) + e.Turns()
  {
    var k, more := |log|, log + e.Turns();
    var told := Told(l, n, k);
    assert Told(l, n, k + 1) == told + [k];
    assert Told(l, n, k + 2) == told + [k] + [k + 1];
    RowsExtend(log, more, told);
    assert RowsAt(more, told + [k] + [k + 1]) == RowsAt(more, told) + [more[k]] + [more[k + 1]];
  }

  lemma ToldGrows(window: seq<Turn>, l: Ledger, log: seq<Turn>, n: nat, e: Exchange)
    requires n > 0 && l.seen <= l.landed <= |log| && EndOfTold(window, l, log, n)
    requires forall p :: p in l.untold ==> p < |log|
    ensures EndOfTold(Last(window + e.Turns(), n), l.(since := l.since + [e]), log + e.Turns(), n)
  {
    ToldIsUntouched(l, l.(since := l.since + [e]), n, |log + e.Turns()|);
    ToldTwoMore(l, n, log, e);
    FlattenSnoc(l.since, e);
    assert l.base + Flatten(l.since + [e]) == l.base + Flatten(l.since) + e.Turns();
    LastOfLast(l.base + Flatten(l.since), e.Turns(), n);
  }

  lemma TrackedSuccess(s: string, n: nat, m: Memory, e: Exchange)
    requires n > 0 && Tracked(s, n, m) && m.present
    ensures Tracked(s, n, Next(s, n, m, Succeed(e)))
  {
    SoundCommit(m, n, e);
    ExtendedCached(m.store, s, e, n);
    if CachedIn(m.store, s).Some? {
      ToldGrows(CachedIn(m.store, s).value, m.ledger, m.log, n, e);
    }
  }

  lemma TrackedUntold(s: string, n: nat, m: Memory, e: Exchange)
    requires Tracked(s, n, m)
    ensures Tracked(s, n, CommitUntold(m, e))
  {
    var m', l, k := CommitUntold(m, e), m.ledger, |m.log|;
    SoundCommit(m, n, e);
    if CachedIn(m.store, s).Some? {
      ToldIsUntouched(l, m'.ledger, n, k);
      assert Told(m'.ledger, n, k + 1) == Told(l, n, k);
      assert Told(m'.ledger, n, k + 2) == Told(l, n, k);
      RowsExtend(m.log, m'.log, Told(l, n, k));
    }
  }

  lemma RefillRows(log: seq<Turn>, turns: seq<Turn>, from: nat, seen: nat, n: nat)
    requires from <= seen <= |log| && turns == Oldest(log[from..seen], n)
    ensures RowsAt(log, Range(from, Min(from + n, seen))) == turns
  {
    var ps := Range(from, Min(from + n, seen));
    assert |ps| == |turns|;
    forall k | 0 <= k < |ps| ensures RowsAt(log, ps)[k] == turns[k] {
      assert ps[k] == from + k;
    }
  }

  /** A window just refilled holds what the refill was. */
  lemma LandedTold(l: Ledger, log: seq<Turn>, n: nat)
    requires n > 0 && l.landed == |log| && l.since == [] && l.from <= l.seen <= |log|
    requires l.base == Oldest(log[l.from..l.seen], n)
    ensures EndOfTold(l.base, l, log, n)
  {
    RefillRows(log, l.base, l.from, l.seen, n);
    assert Told(l, n, |log|) == Range(l.from, Min(l.from + n, l.seen));
    assert l.base + Flatten([]) == l.base;
  }

  lemma TrackedLanding(s: string, n: nat, m: Memory, i: nat)
    requires n > 0 && Tracked(s, n, m) && i < |m.warming|
    ensures Tracked(s, n, Next(s, n, m, Land(i)))
  {
    var m', r := Next(s, n, m, Land(i)), m.warming[i];
    assert OldestOf(m, r.turns, r.from, r.seen, n);
    LandedTold(m'.ledger, m.log, n);
  }

  lemma TrackedRead(s: string, n: nat, m: Memory, readable: bool)
    requires Tracked(s, n, m)
    ensures Tracked(s, n, Next(s, n, m, Read(readable)))
  {
    assert m.log[m.start..|m.log|] == m.Table();
  }

  lemma TrackedDelete(s: string, n: nat, m: Memory)
    requires Tracked(s, n, m)
    ensures Tracked(s, n, Next(s, n, m, DeleteSession))
  {
  }

  lemma TrackedStep(s: string, n: nat, m: Memory, a: Action)
    requires n > 0 && Tracked(s, n, m)
    ensures Tracked(s, n, Next(s, n, m, a))
  {
    match a {
      case Succeed(e) =>
        if m.present {
          TrackedSuccess(s, n, m, e);
        }
      case FailGeneration(e) => TrackedUntold(s, n, m, e);
      case LoseUpdate(e) => TrackedUntold(s, n, m, e);
      case Land(i) =>
        if i < |m.warming| {
          TrackedLanding(s, n, m, i);
        }
      case Read(readable) => TrackedRead(s, n, m, readable);
      case DeleteSession => TrackedDelete(s, n, m);
      case _ =>
    }
  }

  lemma {:induction false} TrackedRun(s: string, n: nat, run: seq<Action>)
    requires n > 0
    ensures Tracked(s, n, After(s, n, run))
  {
    if run != [] {
      TrackedRun(s, n, run[..|run| - 1]);
      TrackedStep(s, n, After(s, n, run[..|run| - 1]), run[|run| - 1]);
    }
  }

  /**
    Over every run a present window is one truncation of the refill that landed last, the
    oldest rows of the table it was launched on, followed by all exchanges it was told of since.
  */
  lemma WindowRefinesTruncation(s: string, n: nat, run: seq<Action>)
    requires n > 0 && CachedIn(After(s, n, run).store, s).Some?
    ensures var m := After(s, n, run);
            && CachedIn(m.store, s).value == Last(m.ledger.base + Flatten(m.ledger.since), n)
            && OldestOf(m, m.ledger.base, m.ledger.from, m.ledger.seen, n)
  {
    TrackedRun(s, n, run);
  }

  // -------------------------------------------------------- when it is up to date

  /** The position of the first of the table's last n rows, the table beginning at `start`. */
  function Start(n: nat, start: nat, rows: nat): nat {
    if rows <= start + n then start else rows - n
  }

  /**
    The window is current. None of the table's last n rows went untold since the refill
    landed; those n rows all came after the landing, unless the refill was the whole table,
    launched when it had at most n rows and landed before it grew; and if the table has fewer
    than n rows, the window was told of none from before the last deletion.
  */
  ghost predicate Current(l: Ledger, n: nat, start: nat, rows: nat) {
    && (forall p :: p in l.untold && Start(n, start, rows) <= p && l.landed <= p ==> p >= rows)
    && (Start(n, start, rows) >= l.landed || (l.seen == l.landed && l.seen <= l.from + n))
    && (rows < start + n ==> Forgotten(l, start))
  }

  /** No window was told of a row before the last deletion: not by the refill, nor since. */
  ghost predicate Forgotten(l: Ledger, start: nat) {
    (l.from == start || l.seen == l.from) && (forall p: nat :: l.landed <= p < start ==> p in l.untold)
  }

  ghost predicate UpToDate(m: Memory, n: nat) {
    Current(m.ledger, n, m.start, |m.log|)
  }

  lemma {:induction false} AtLeastIndex(ps: seq<nat>, lo: nat, bound: nat, i: nat)
    requires Ascending(ps, bound) && i < |ps| && lo <= ps[0]
    ensures ps[i] >= lo + i
  {
    if i > 0 {
      AtLeastIndex(ps, lo, bound, i - 1);
    }
  }

  /** Ascending positions that include all of the last ones end with exactly those. */
  lemma {:induction false} EndsWithRange(ps: seq<nat>, lo: nat, hi: nat)
    requires Ascending(ps, hi) && lo <= hi && forall p: nat :: lo <= p < hi ==> p in ps
    ensures |ps| >= hi - lo && ps[|ps| - (hi - lo)..] == Range(lo, hi)
    decreases hi
  {
    if lo < hi {
      assert hi - 1 in ps;
      var k := |ps| - 1;
      assert ps[k] == hi - 1;
      forall p: nat | lo <= p < hi - 1 ensures p in ps[..k] {
        assert p in ps && p != ps[k];
      }
      EndsWithRange(ps[..k], lo, hi - 1);
      assert ps == ps[..k] + [hi - 1];
    }
  }

  ghost predicate Covers(ps: seq<nat>, lo: nat, hi: nat) {
    forall p: nat :: lo <= p < hi ==> p in ps
  }

  /** Positions end with exactly those from `lo` on when they cover them and, short of n, are no more. */
  lemma EndIff(ps: seq<nat>, n: nat, lo: nat, hi: nat)
    requires n > 0 && Ascending(ps, hi) && lo <= hi <= lo + n
    ensures Last(ps, n) == Range(lo, hi)
            <==> Covers(ps, lo, hi) && (hi < lo + n ==> forall i :: 0 <= i < |ps| ==> ps[i] >= lo)
  {
    if Covers(ps, lo, hi) && (hi < lo + n ==> forall i :: 0 <= i < |ps| ==> ps[i] >= lo) {
      EndsWithRange(ps, lo, hi);
      if hi < lo + n && ps != [] {
        AtLeastIndex(ps, lo, hi, |ps| - 1);
        assert |ps| == hi - lo;
      }
    }
    if Last(ps, n) == Range(lo, hi) {
      forall p: nat | lo <= p < hi ensures p in ps {
        assert Range(lo, hi)[p - lo] == p;
        assert p in Last(ps, n);
      }
    }
  }

  /** The told rows cover the table's end exactly when neither refill nor untold rows leave a gap. */
  lemma CoversIff(l: Ledger, n: nat, start: nat, rows: nat)
    requires n > 0 && l.from <= l.seen <= l.landed <= rows && l.from <= start <= rows
    ensures var lo := Start(n, start, rows);
            Covers(Told(l, n, rows), lo, rows)
            <==> && (forall p :: p in l.untold && lo <= p && l.landed <= p ==> p >= rows)
                 && (lo >= l.landed || (l.seen == l.landed && l.seen <= l.from + n))
  {
    var told, lo := Told(l, n, rows), Start(n, start, rows);
    ToldMeaning(l, n, rows);
    if lo < l.landed && !(l.seen == l.landed && l.seen <= l.from + n) {
      assert l.landed - 1 !in told;
    }
    if exists p :: p in l.untold && lo <= p && l.landed <= p && p < rows {
      var p :| p in l.untold && lo <= p && l.landed <= p && p < rows;
      assert p !in told;
    }
  }

  /** And none of them lies before the last deletion exactly when those rows are forgotten. */
  lemma ForgottenIff(l: Ledger, n: nat, start: nat, rows: nat)
    requires n > 0 && l.from <= l.seen <= l.landed <= rows && start <= rows
    requires l.from == start || l.seen <= start
    ensures (forall i :: 0 <= i < |Told(l, n, rows)| ==> Told(l, n, rows)[i] >= start) <==> Forgotten(l, start)
  {
    var told := Told(l, n, rows);
    ToldMeaning(l, n, rows);
    if l.from < start && l.from < l.seen {
      assert l.from in told;
    }
    if exists p: nat :: l.landed <= p < start && p !in l.untold {
      var p: nat :| l.landed <= p < start && p !in l.untold;
      assert p in told;
    }
    if Forgotten(l, start) {
      forall i | 0 <= i < |told| ensures told[i] >= start {
        assert told[i] in told;
      }
    }
  }

  lemma CurrentIff(l: Ledger, n: nat, start: nat, rows: nat)
    requires n > 0 && l.from <= l.seen <= l.landed <= rows && start <= rows
    requires l.from == start || l.seen <= start
    ensures Last(Told(l, n, rows), n) == Range(Start(n, start, rows), rows) <==> Current(l, n, start, rows)
  {
    ToldMeaning(l, n, rows);
    EndIff(Told(l, n, rows), n, Start(n, start, rows), rows);
    CoversIff(l, n, start, rows);
    ForgottenIff(l, n, start, rows);
  }

  /** The positions the window holds, in order. */
  function Held(m: Memory, n: nat): seq<nat> {
    Last(Told(m.ledger, n, |m.log|), n)
  }

  /** The positions of the table's last n rows. */
  function TailOf(m: Memory, n: nat): seq<nat> {
    Range(Start(n, m.start, |m.log|), |m.log|)
  }

  /**
    The exact condition, over every run. A present window holds exactly the table's last n
    rows if and only if it is `UpToDate`; its text is then the text of those rows, and when no
    two equal rows were ever written its text agrees only then.
  */
  lemma WindowIsTableTailIff(s: string, n: nat, run: seq<Action>)
    requires n > 0 && CachedIn(After(s, n, run).store, s).Some?
    ensures var m := After(s, n, run);
            && Ascending(Held(m, n), |m.log|)
            && CachedIn(m.store, s).value == RowsAt(m.log, Held(m, n))
            && (Held(m, n) == TailOf(m, n) <==> UpToDate(m, n))
            && (UpToDate(m, n) ==> CachedIn(m.store, s).value == Last(m.Table(), n))
            && (Distinct(m.log) && CachedIn(m.store, s).value == Last(m.Table(), n) ==> UpToDate(m, n))
  {
    TrackedRun(s, n, run);
    TailIff(After(s, n, run), CachedIn(After(s, n, run).store, s).value, n);
  }

  lemma TailIff(m: Memory, window: seq<Turn>, n: nat)
    requires n > 0 && Sound(m, n) && EndOfTold(window, m.ledger, m.log, n)
    ensures Ascending(Held(m, n), |m.log|)
    ensures window == RowsAt(m.log, Held(m, n))
    ensures Held(m, n) == TailOf(m, n) <==> UpToDate(m, n)
    ensures UpToDate(m, n) ==> window == Last(m.Table(), n)
    ensures Distinct(m.log) && window == Last(m.Table(), n) ==> UpToDate(m, n)
  {
    CurrentIff(m.ledger, n, m.start, |m.log|);
    LastRows(m.log, Told(m.ledger, n, |m.log|), n);
    TextOfTail(m, n);
    if Distinct(m.log) && window == Last(m.Table(), n) {
      SameRows(m.log, Held(m, n), TailOf(m, n));
    }
  }

  lemma LastRows(log: seq<Turn>, ps: seq<nat>, n: nat)
    requires n > 0 && Ascending(ps, |log|)
    ensures Ascending(Last(ps, n), |log|)
    ensures RowsAt(log, Last(ps, n)) == Last(RowsAt(log, ps), n)
  {
    assert forall i :: 0 <= i < |Last(ps, n)| ==> Last(ps, n)[i] == ps[|ps| - |Last(ps, n)| + i];
  }

  lemma TextOfTail(m: Memory, n: nat)
    requires n > 0 && m.start <= |m.log|
    ensures RowsAt(m.log, TailOf(m, n)) == Last(m.Table(), n)
  {
    var lo := Start(n, m.start, |m.log|);
    assert Last(m.Table(), n) == m.log[lo..];
    assert |TailOf(m, n)| == |m.log| - lo;
    forall i | 0 <= i < |m.log| - lo ensures RowsAt(m.log, TailOf(m, n))[i] == m.log[lo..][i] {
      assert TailOf(m, n)[i] == lo + i;
    }
  }

  lemma SameRows(log: seq<Turn>, ps: seq<nat>, qs: seq<nat>)
    requires Distinct(log)
    requires forall i :: 0 <= i < |ps| ==> ps[i] < |log|
    requires forall i :: 0 <= i < |qs| ==> qs[i] < |log|
    requires RowsAt(log, ps) == RowsAt(log, qs)
    ensures ps == qs
  {
    forall i | 0 <= i < |ps| ensures ps[i] == qs[i] {
      assert log[ps[i]] == RowsAt(log, ps)[i] == RowsAt(log, qs)[i] == log[qs[i]];
    }
  }

  lemma FailureStep(s: string, n: nat, m: Memory, e: Exchange)
    requires n > 0 && Tracked(s, n, m) && m.present
    ensures var m' := Next(s, n, m, FailGeneration(e)); m'.store == m.store && !UpToDate(m', n)
  {
    var m' := Next(s, n, m, FailGeneration(e));
    assert |m.log| + 1 in m'.ledger.untold && |m'.log| == |m.log| + 2;
  }

  /** A generation that fails leaves a present window out of date. */
  lemma FailureIsNotRemembered(s: string, n: nat, run: seq<Action>, e: Exchange)
    requires n > 0 && After(s, n, run).present && CachedIn(After(s, n, run).store, s).Some?
    ensures var m := After(s, n, run + [FailGeneration(e)]);
            CachedIn(m.store, s).Some? && !UpToDate(m, n)
  {
    AfterOne(s, n, run, FailGeneration(e));
    TrackedRun(s, n, run);
    FailureStep(s, n, After(s, n, run), e);
  }

  /** A refill that lands after the table has grown leaves a window that stays out of date until n rows later. */
  lemma LateRefillForgets(s: string, n: nat, run: seq<Action>)
    requires n > 0 && CachedIn(After(s, n, run).store, s).Some?
    requires var m := After(s, n, run);
             m.start < m.ledger.landed && m.ledger.seen < m.ledger.landed && |m.log| < m.ledger.landed + n
    ensures var m := After(s, n, run); !UpToDate(m, n) && Held(m, n) != TailOf(m, n)
  {
    WindowIsTableTailIff(s, n, run);
  }

  lemma DeletedSteps(s: string, n: nat, m: Memory)
    requires m.present
    ensures Next(s, n, Next(s, n, m, DeleteSession), CreateSession) == m.(start := |m.log|)
  {
  }

  lemma DeletedIsStale(s: string, n: nat, m: Memory, window: seq<Turn>)
    requires n > 0 && Sound(m, n) && EndOfTold(window, m.ledger, m.log, n)
    ensures var m' := m.(start := |m.log|); m'.Table() == [] && (UpToDate(m', n) <==> window == [])
  {
    var m' := m.(start := |m.log|);
    TailIff(m', window, n);
    assert TailOf(m', n) == [];
  }

  /**
    Deleting the session leaves its window: created again under the same id, the session is
    served the deleted rows, and the window is out of date unless it was empty.
  */
  lemma DeletedRowsAreServed(s: string, n: nat, run: seq<Action>)
    requires n > 0 && After(s, n, run).present && CachedIn(After(s, n, run).store, s).Some?
    ensures var m, m' := After(s, n, run), After(s, n, run + [DeleteSession] + [CreateSession]);
            && m'.present && m'.Table() == [] && CachedIn(m'.store, s) == CachedIn(m.store, s)
            && (UpToDate(m', n) <==> CachedIn(m.store, s).value == [])
  {
    AfterOne(s, n, run, DeleteSession);
    AfterOne(s, n, run + [DeleteSession], CreateSession);
    DeletedSteps(s, n, After(s, n, run));
    TrackedRun(s, n, run);
    DeletedIsStale(s, n, After(s, n, run), CachedIn(After(s, n, run).store, s).value);
  }
}
