/**
  How the chat service uses the semantic cache: which intents may be cached, under which
  scope, and why one session is never served another session's reply.
*/
module ChatScope {
  import opened Wrappers
  import opened SemanticCache

  const STATIC_INTENTS: set<string> := {"greeting", "general_faq", "chit_chat", "fallback"}

  function CacheScope(intent: string, session: string): Option<string> {
    if intent == "general_faq" then None else Some(session)
  }

  datatype Settings = Settings(limits: Limits, threshold: real, ttl: real)

  /**
    What any request may do to the shared cache, at any moment: look a message up (`hits`
    is the index's answer), or, some time after a miss, store its reply.
  */
  datatype Action =
    | Lookup(session: string, intent: string, vec: Vec, now: real, hits: seq<nat>)
    | Store(session: string, intent: string, vec: Vec, now: real, response: string, fate: AddFate)

  function QueryOf(a: Action, s: Settings): Query
    requires a.Lookup?
  {
    Query(a.vec, CacheScope(a.intent, a.session), Some(a.intent), a.now, s.threshold, s.ttl)
  }

  function ItemOf(a: Action): Item
    requires a.Store?
  {
    Item(Meta(a.response, a.intent, CacheScope(a.intent, a.session), a.now), a.vec)
  }

  function Next(c: Cache, a: Action, s: Settings): Cache {
    if a.Store? && a.intent in STATIC_INTENTS then Added(c, ItemOf(a), a.fate, s.limits) else c
  }

  /** The cache after a run of actions of any number of interleaved requests. */
  function CacheAfter(run: seq<Action>, s: Settings): Cache {
    if run == [] then Cache([], []) else Next(CacheAfter(run[..|run| - 1], s), run[|run| - 1], s)
  }

  /** The metadata a lookup is served; non-static intents never look. */
  function AnswerTo(c: Cache, a: Action, s: Settings): Option<Meta>
    requires a.Lookup? && |c.index| == |c.data|
    requires forall h :: 0 <= h < |a.hits| ==> a.hits[h] < |c.data|
  {
    if a.intent in STATIC_INTENTS then Served(c, QueryOf(a, s), a.hits) else None
  }

  /** A legal lookup: the index answers with its true top 20. */
  ghost predicate Legal(c: Cache, a: Action, s: Settings) {
    a.Lookup? && IsTopK(c, QueryOf(a, s), a.hits)
  }

  /** The query of a lookup, in full: shared intents are asked for under no scope, all others under the session. */
  ghost function Asked(a: Action, s: Settings): Query
    requires a.Lookup?
  {
    Query(a.vec, if a.intent == "general_faq" then None else Some(a.session), Some(a.intent), a.now, s.threshold, s.ttl)
  }

  /** The entry of a store, in full. */
  ghost function Written(a: Action): Item
    requires a.Store?
  {
    Item(Meta(a.response, a.intent, if a.intent == "general_faq" then None else Some(a.session), a.now), a.vec)
  }

  /**
    What a lookup is answered: outside the four static intents nothing; within them a best fit
    among the hits, or nothing when no hit fits.
  */
  lemma LookupMeaning(c: Cache, a: Action, s: Settings)
    requires Aligned(c) && Legal(c, a, s)
    ensures if a.intent in {"greeting", "general_faq", "chit_chat", "fallback"}
            then Answers(c, Asked(a, s), a.hits, AnswerTo(c, a, s)) else AnswerTo(c, a, s) == None
  {
    ServedAnswers(c, QueryOf(a, s), a.hits);
  }

  /** What a store leaves: outside the four static intents nothing new; within them one add of its entry. */
  lemma StoreMeaning(c: Cache, a: Action, s: Settings)
    requires a.Store?
    ensures Next(c, a, s) == if a.intent in {"greeting", "general_faq", "chit_chat", "fallback"}
                             then Added(c, Written(a), a.fate, s.limits) else c
  {
  }

  /** Every cached entry is exactly what some earlier store of a static intent wrote. */
  ghost predicate Traced(run: seq<Action>, c: Cache) {
    forall i :: 0 <= i < |c.data| ==> Origin(run, c.data[i])
  }

  ghost predicate Origin(run: seq<Action>, item: Item) {
    exists k :: 0 <= k < |run| && run[k].Store? && run[k].intent in STATIC_INTENTS && item == Written(run[k])
  }

  lemma OriginGrows(run: seq<Action>, a: Action, item: Item)
    requires Origin(run, item) || (a.Store? && a.intent in STATIC_INTENTS && item == Written(a))
    ensures Origin(run + [a], item)
  {
    if Origin(run, item) {
      var k :| 0 <= k < |run| && run[k].Store? && run[k].intent in STATIC_INTENTS && item == Written(run[k]);
      assert (run + [a])[k] == run[k];
    } else {
      assert (run + [a])[|run|] == a;
    }
  }

  /** An add brings in nothing but the new entry, whatever it evicts. */
  lemma AddBringsOnly(c: Cache, item: Item, fate: AddFate, l: Limits, x: Item)
    requires x in Added(c, item, fate, l).data
    ensures x in c.data || x == item
  {
    LastIsSuffix(c.data + [item], l.maxSize - l.evictionCount);
    assert x in c.data + [item];
  }

  lemma {:induction false} EntriesAreTraced(run: seq<Action>, s: Settings)
    ensures Traced(run, CacheAfter(run, s)) && Aligned(CacheAfter(run, s))
  {
    if run != [] {
      var n := |run| - 1;
      var before, after, a := CacheAfter(run[..n], s), CacheAfter(run, s), run[n];
      assert run == run[..n] + [a];
      EntriesAreTraced(run[..n], s);
      if a.Store? {
        AddKeepsAligned(before, ItemOf(a), a.fate, s.limits);
      }
      forall i | 0 <= i < |after.data|
        ensures Origin(run, after.data[i])
      {
        if a.Store? && a.intent in STATIC_INTENTS {
          AddBringsOnly(before, ItemOf(a), a.fate, s.limits, after.data[i]);
        }
        OriginGrows(run[..n], a, after.data[i]);
      }
    }
  }

  /**
    Over every interleaving, what a session with a non-empty id is served for an intent was
    stored by an earlier store for that same intent, made by that very session unless the
    intent is the shared one.
  */
  lemma SessionsStayApart(run: seq<Action>, look: Action, s: Settings) returns (k: nat)
    requires Aligned(CacheAfter(run, s)) && Legal(CacheAfter(run, s), look, s)
    requires look.session != ""
    requires AnswerTo(CacheAfter(run, s), look, s).Some?
    ensures k < |run| && run[k].Store? && run[k].intent == look.intent
    ensures Written(run[k]).meta == AnswerTo(CacheAfter(run, s), look, s).value
    ensures look.now - run[k].now <= s.ttl
    ensures run[k].session == look.session || look.intent == "general_faq"
  {
    var c, q := CacheAfter(run, s), QueryOf(look, s);
    EntriesAreTraced(run, s);
    var i := Pick(c, q, look.hits).value;
    ServedIsBest(c, q, look.hits, i);
    assert Origin(run, c.data[i]);
    k :| 0 <= k < |run| && run[k].Store? && run[k].intent in STATIC_INTENTS && c.data[i] == Written(run[k]);
  }

  /** No run serves this session, for this intent, a reply that a different session stored under its own scope. */
  ghost predicate Isolated(session: string, intent: string, s: Settings) {
    forall run: seq<Action>, look: Action ::
      && Aligned(CacheAfter(run, s)) && Legal(CacheAfter(run, s), look, s)
      && look.session == session && look.intent == intent
      && AnswerTo(CacheAfter(run, s), look, s).Some?
      ==> AnswerTo(CacheAfter(run, s), look, s).value.user in {None, Some(session)}
  }

  /**
    Isolation is exactly "non-empty session id": an empty scope is falsy, so it switches the
    scope filter off and the lookup sees every session's private entries.
  */
  lemma IsolatedIff(session: string, intent: string, s: Settings)
    ensures Isolated(session, intent, s) <==> session != "" || intent == "general_faq" || intent !in STATIC_INTENTS
  {
    if session == "" && intent != "general_faq" && intent in STATIC_INTENTS {
      EmptySessionLeaks(intent, s);
    } else {
      forall run: seq<Action>, look: Action |
        && Aligned(CacheAfter(run, s)) && Legal(CacheAfter(run, s), look, s)
        && look.session == session && look.intent == intent
        && AnswerTo(CacheAfter(run, s), look, s).Some?
        ensures AnswerTo(CacheAfter(run, s), look, s).value.user in {None, Some(session)}
      {
        SharedOrOwn(run, look, s);
      }
    }
  }

  lemma SharedOrOwn(run: seq<Action>, look: Action, s: Settings)
    requires Aligned(CacheAfter(run, s)) && Legal(CacheAfter(run, s), look, s)
    requires look.session != "" || look.intent == "general_faq"
    requires AnswerTo(CacheAfter(run, s), look, s).Some?
    ensures AnswerTo(CacheAfter(run, s), look, s).value.user in {None, Some(look.session)}
  {
    var c, q := CacheAfter(run, s), QueryOf(look, s);
    EntriesAreTraced(run, s);
    var i := Pick(c, q, look.hits).value;
    ServedIsBest(c, q, look.hits, i);
    assert Origin(run, c.data[i]);
  }

  /** One store by session "alice", and one lookup of the same message with an empty id. */
  lemma EmptySessionLeaks(intent: string, s: Settings)
    requires intent in STATIC_INTENTS && intent != "general_faq"
    ensures !Isolated("", intent, s)
  {
    var store := Store("alice", intent, [s.threshold], 0.0, "Hello Alice", AddFate(true, true, false));
    var look := Lookup("", intent, [1.0], s.ttl, [0]);
    var run := [store];
    var c := CacheAfter(run, s);
    assert run[..0] == [];
    assert CacheAfter(run[..0], s) == Cache([], []);
    assert c == Next(Cache([], []), store, s);
    assert c.data == [ItemOf(store)] && c.index == [[s.threshold]];
    assert Dot([1.0], [s.threshold]) == s.threshold by {
      assert [1.0][1..] == [];
    }
    assert Similarity(c, QueryOf(look, s), 0) == s.threshold;
    assert Legal(c, look, s);
    assert Qualifies(c, QueryOf(look, s), 0);
    assert AnswerTo(c, look, s) == Some(ItemOf(store).meta);
  }

  // ------------------------------------------------------------------- the service

  /** The intent stage's verdict on a message, with the tokens it cost. */
  datatype Routing = Routing(intent: string, tokens: nat)

  /** What the orchestrator makes of the message, if it does not raise. */
  datatype Generated = Generated(content: string, tokens: nat)

  datatype Response = Response(content: string, tokens: nat, cached: bool)

  class ChatService {
    const semanticCache: SemanticCacheService

    constructor (semanticCache: SemanticCacheService)
      ensures this.semanticCache == semanticCache
    {
      this.semanticCache := semanticCache;
    }

    function Configured(): Settings {
      Settings(semanticCache.limits, semanticCache.threshold, semanticCache.ttl)
    }

    /** One lookup action: the cache is asked only about static intents, and stays as it is. */
    method SearchCache(message: string, intent: string, session: string, now: real, hits: seq<nat>)
      returns (found: Option<Meta>)
      requires semanticCache.Valid()
      requires Legal(semanticCache.View(),
                     Lookup(session, intent, semanticCache.encode(message), now, hits), Configured())
      modifies semanticCache
      ensures semanticCache.Valid() && semanticCache.View() == old(semanticCache.View())
      ensures found == AnswerTo(semanticCache.View(),
                                Lookup(session, intent, semanticCache.encode(message), now, hits), Configured())
    {
      found := None;
      if intent in STATIC_INTENTS {
        var nearMiss;
        found, nearMiss := semanticCache.Search(message, CacheScope(intent, session), Some(intent), now, hits);
      }
    }

    /** One store action. */
    method StoreReply(message: string, reply: string, intent: string, session: string, now: real, fate: AddFate)
      requires semanticCache.Valid()
      modifies semanticCache
      ensures semanticCache.Valid()
      ensures semanticCache.View() ==
              Next(old(semanticCache.View()),
                   Store(session, intent, semanticCache.encode(message), now, reply, fate), Configured())
    {
      if intent in STATIC_INTENTS {
        semanticCache.Add(message, reply, intent, CacheScope(intent, session), now, fate);
      }
    }

    /**
      Served from the cache when it can be; otherwise generated, charged for the intent
      stage as well, and stored. A generation that raises stores nothing.
    */
    method GenerateResponse(message: string, session: string, routing: Routing, generated: Option<Generated>,
                            lookedUp: real, stored: real, hits: seq<nat>, fate: AddFate)
      returns (response: Option<Response>)
      requires semanticCache.Valid()
      requires Legal(semanticCache.View(),
                     Lookup(session, routing.intent, semanticCache.encode(message), lookedUp, hits), Configured())
      modifies semanticCache
      ensures semanticCache.Valid()
      ensures var look := Lookup(session, routing.intent, semanticCache.encode(message), lookedUp, hits);
              match old(AnswerTo(semanticCache.View(), look, Configured()))
              case Some(meta) =>
                && response == Some(Response(meta.response, routing.tokens, true))
                && semanticCache.View() == old(semanticCache.View())
              case None =>
                match generated
                case None => response == None && semanticCache.View() == old(semanticCache.View())
                case Some(g) =>
                  && response == Some(Response(g.content, g.tokens + routing.tokens, false))
                  && semanticCache.View() ==
                     Next(old(semanticCache.View()),
                          Store(session, routing.intent, semanticCache.encode(message), stored, g.content, fate),
                              Configured())
      ensures var c, vec := old(semanticCache.View()), semanticCache.encode(message);
              var scope := if routing.intent == "general_faq" then None else Some(session);
              var q := Query(vec, scope, Some(routing.intent), lookedUp, semanticCache.threshold, semanticCache.ttl);
              if routing.intent !in {"greeting", "general_faq", "chit_chat", "fallback"} then
                (response.Some? ==> !response.value.cached) && semanticCache.View() == c
              else if exists a :: 0 <= a < |hits| && hits[a] < |c.data| && Fits(q, c.data[hits[a]]) then
                && semanticCache.View() == c
                && exists i: nat :: i in hits && BestFit(c, q, i)
                     && response == Some(Response(c.data[i].meta.response, routing.tokens, true))
              else generated.Some? ==>
                && response == Some(Response(generated.value.content, generated.value.tokens + routing.tokens, false))
                && semanticCache.View() ==
                   Added(c, Item(Meta(generated.value.content, routing.intent, scope, stored), vec), fate,
                       semanticCache.limits)
    {
      LookupMeaning(semanticCache.View(),
                    Lookup(session, routing.intent, semanticCache.encode(message), lookedUp, hits), Configured());
      var found := SearchCache(message, routing.intent, session, lookedUp, hits);
      if found.Some? {
        return Some(Response(found.value.response, routing.tokens, true));
      }
      if generated == None {
        return None;
      }
      StoreReply(message, generated.value.content, routing.intent, session, stored, fate);
      response := Some(Response(generated.value.content, generated.value.tokens + routing.tokens, false));
    }
  }
}
