/**
  The history half of `ChatMemoryService`: a Redis window over the conversation, refilled
  from the message table when it is absent, truncated after every interaction.
*/
module ChatMemory {
  import opened PySlices
  import opened RedisModel
  import opened Wrappers

  const HISTORY_TTL: nat := 86400 * SECOND

  /** `ORDER BY sending_time ASC LIMIT n`: the oldest n rows. */
  function Oldest<T>(s: seq<T>, n: nat): seq<T> {
    if n >= |s| then s else s[..n]
  }

  datatype Exchange = Exchange(user: string, assistant: string) {
    function Turns(): seq<Turn> {
      [Turn("user", user), Turn("assistant", assistant)]
    }
  }

  function Flatten(es: seq<Exchange>): seq<Turn> {
    if es == [] then [] else Flatten(es[..|es| - 1]) + es[|es| - 1].Turns()
  }

  /** The cached history after the exchanges, each appended and the result truncated. */
  function Remembered(base: seq<Turn>, es: seq<Exchange>, n: nat): seq<Turn> {
    if es == [] then base
    else Last(Remembered(base, es[..|es| - 1], n) + es[|es| - 1].Turns(), n)
  }

  lemma LastOfLast<T>(a: seq<T>, b: seq<T>, n: nat)
    requires n > 0
    ensures Last(Last(a, n) + b, n) == Last(a + b, n)
  {
    if n < |a| {
      assert Last(a, n) + b == (a + b)[|a| - n..];
    }
  }

  /** Truncating after every interaction is truncating the whole conversation once. */
  lemma {:induction false} WindowIsTail(base: seq<Turn>, es: seq<Exchange>, n: nat)
    requires n > 0
    ensures Last(Remembered(base, es, n), n) == Last(base + Flatten(es), n)
    ensures es != [] || |base| <= n ==> Remembered(base, es, n) == Last(base + Flatten(es), n)
  {
    if es == [] {
      assert base + Flatten(es) == base;
    } else {
      var head, last := es[..|es| - 1], es[|es| - 1].Turns();
      WindowIsTail(base, head, n);
      LastOfLast(Remembered(base, head, n), last, n);
      LastOfLast(base + Flatten(head), last, n);
      assert base + Flatten(head) + last == base + Flatten(es);
    }
  }

  /** With CHAT_MAX_HISTORY = 0 the slice keeps everything: the window never shrinks. */
  lemma {:induction false} ZeroWindowKeepsAll(base: seq<Turn>, es: seq<Exchange>)
    ensures Remembered(base, es, 0) == base + Flatten(es)
  {
    if es != [] {
      ZeroWindowKeepsAll(base, es[..|es| - 1]);
    }
  }

  ghost predicate Distinct<T(!new)>(s: seq<T>) {
    forall p, q :: 0 <= p < q < |s| ==> s[p] != s[q]
  }

  // ------------------------------------------------------------- one session's steps

  function CachedIn(store: Store, session: string): Option<seq<Turn>> {
    match store.Get(History(session))
    case Some(Window(turns)) => Some(turns)
    case _ => None
  }

  /** A refill lands: it overwrites whatever is there. */
  function Refilled(store: Store, session: string, turns: seq<Turn>): Store {
    store.SetEx(History(session), Window(turns), HISTORY_TTL)
  }

  /** The write-through of an interaction: only an existing window is extended. */
  function Extended(store: Store, session: string, e: Exchange, n: nat): Store {
    match CachedIn(store, session)
    case Some(turns) => Refilled(store, session, Last(turns + e.Turns(), n))
    case None => store
  }

  /** The end of a window after one exchange: the user's turn, the assistant's, and before them what room is left. */
  ghost predicate EndsWith(w: seq<Turn>, was: seq<Turn>, e: Exchange, n: nat) {
    var said, answered := Turn("user", e.user), Turn("assistant", e.assistant);
    if n == 0 then w == was + [said, answered]
    else if n == 1 then w == [answered]
    else w == (if |was| <= n - 2 then was else was[|was| - (n - 2)..]) + [said, answered]
  }

  lemma LastEndsWith(turns: seq<Turn>, e: Exchange, n: nat)
    ensures EndsWith(Last(turns + e.Turns(), n), turns, e, n)
  {
  }

  class ChatMemoryService {
    const redis: RedisClient
    const maxHistory: nat
    // cache refills launched and not yet landed
    var warming: seq<(string, seq<Turn>)>

    constructor (redis: RedisClient, maxHistory: nat)
      ensures this.redis == redis && this.maxHistory == maxHistory && warming == []
    {
      this.redis, this.maxHistory, warming := redis, maxHistory, [];
    }

    ghost function Cached(session: string): Option<seq<Turn>>
      reads redis
    {
      CachedIn(redis.State(), session)
    }

    /**
      The cached window, else the table's oldest rows, with a refill launched in the
      background. `rows` is the session's message table; `readable` whether Redis answered.
    */
    method GetReliableHistory(session: string, rows: seq<Turn>, readable: bool) returns (history: seq<Turn>)
      modifies this`warming
      ensures readable && Cached(session).Some? ==>
          history == Last(Cached(session).value, maxHistory) && warming == old(warming)
      ensures !readable || Cached(session).None? ==>
                history == Oldest(rows, maxHistory) && warming == old(warming) + [(session, Oldest(rows, maxHistory))]
    {
      if readable {
        var cached := redis.Get(History(session));
        if cached.Some? && cached.value.Window? {
          return Last(cached.value.turns, maxHistory);
        }
      }
      history := Oldest(rows, maxHistory);
      warming := warming + [(session, history)];
    }

    /** One launched refill lands, overwriting whatever is there. */
    method LandRefill(i: nat)
      requires i < |warming|
      modifies this`warming, redis
      ensures warming == old(warming)[..i] + old(warming)[i + 1..]
      ensures redis.State() == Refilled(old(redis.State()), old(warming)[i].0, old(warming)[i].1)
      ensures var key := History(old(warming)[i].0);
              key in redis.State().data
              && redis.State().data[key] == Entry(Window(old(warming)[i].1), Some(redis.State().now + 86_400_000))
      ensures forall other: string :: other != old(warming)[i].0 ==> Cached(other) == old(Cached(other))
    {
      var (session, turns) := warming[i];
      redis.Set(History(session), Window(turns), HISTORY_TTL);
      warming := warming[..i] + warming[i + 1..];
    }

    /** The write-through of a successful interaction: only an existing window is extended. */
    method ExtendHistory(session: string, e: Exchange)
      modifies redis
      ensures redis.State() == Extended(old(redis.State()), session, e, maxHistory)
      ensures if old(Cached(session)).None? then Cached(session).None?
              else Cached(session).Some?
                   && EndsWith(Cached(session).value, old(Cached(session)).value, e, maxHistory)
      ensures forall other: string :: other != session ==> Cached(other) == old(Cached(other))
    {
      var cached := redis.Get(History(session));
      if cached.Some? && cached.value.Window? {
        var history := cached.value.turns + [Turn("user", e.user)];
        history := history + [Turn("assistant", e.assistant)];
        assert history == cached.value.turns + e.Turns();
        LastEndsWith(cached.value.turns, e, maxHistory);
        history := Last(history, maxHistory);
        redis.Set(History(session), Window(history), HISTORY_TTL);
      }
    }
  }
}
