/**
  The in-memory semantic cache: a list of entries and a vector index that must agree
  position by position, first-in-first-out eviction, a filtered nearest-neighbour search
  over the index's top 20, and a bounded cache of query encodings.
*/
module SemanticCache {
  import opened PySlices
  import opened Wrappers

  type Vec = seq<real>

  /** Inner product, the similarity of the flat index. */
  function Dot(a: Vec, b: Vec): real {
    if a == [] || b == [] then 0.0 else a[0] * b[0] + Dot(a[1..], b[1..])
  }

  /** Position by position: each pair of coordinates adds its product. */
  lemma {:induction false} DotSnoc(a: Vec, x: real, b: Vec, y: real)
    requires |a| == |b|
    ensures Dot(a + [x], b + [y]) == Dot(a, b) + x * y
  {
    if a == [] {
      assert a + [x] == [x] && b + [y] == [y];
      assert Dot([x][1..], [y][1..]) == 0.0;
    } else {
      DotSnoc(a[1..], x, b[1..], y);
      assert (a + [x])[1..] == a[1..] + [x] && (b + [y])[1..] == b[1..] + [y];
    }
  }

  datatype Meta = Meta(response: string, intent: string, user: Option<string>, timestamp: real)
  datatype Item = Item(meta: Meta, vec: Vec)
  datatype Cache = Cache(data: seq<Item>, index: seq<Vec>)
  datatype Limits = Limits(maxSize: int, evictionCount: int)

  function Vectors(items: seq<Item>): seq<Vec> {
    seq(|items|, i requires 0 <= i < |items| => items[i].vec)
  }

  /** Index position i holds the vector of list entry i, and there are no others. */
  ghost predicate Aligned(c: Cache) {
    c.index == Vectors(c.data)
  }

  // --------------------------------------------------------------- adding, evicting

  function Evict(c: Cache, l: Limits): Cache {
    if |c.data| <= l.maxSize then c
    else
      var kept := Last(c.data, l.maxSize - l.evictionCount);
      Cache(kept, Vectors(kept))
  }

  /** Which parts of an `add` succeed. */
  datatype AddFate = AddFate(encodes: bool, indexes: bool, evicts: bool)

  const SMOOTH: AddFate := AddFate(true, true, true)

  function Added(c: Cache, item: Item, fate: AddFate, l: Limits): Cache {
    if !fate.encodes then c
    else if !fate.indexes then
      // the list entry was appended first; it is rolled back if the index is behind
      if |c.data| + 1 > |c.index| then c else c.(data := c.data + [item])
    else
      var added := Cache(c.data + [item], c.index + [item.vec]);
      if |added.data| > l.maxSize && fate.evicts then Evict(added, l) else added
  }

  lemma VectorsSnoc(items: seq<Item>, item: Item)
    ensures Vectors(items + [item]) == Vectors(items) + [item.vec]
  {
  }

  /** No add, failed add or failed eviction can put the list and the index out of step. */
  lemma AddKeepsAligned(c: Cache, item: Item, fate: AddFate, l: Limits)
    requires Aligned(c)
    ensures Aligned(Added(c, item, fate, l))
  {
    VectorsSnoc(c.data, item);
  }

  /** The cache after a series of adds. */
  function Adds(items: seq<Item>, fates: seq<AddFate>, l: Limits): Cache
    requires |items| == |fates|
  {
    if items == [] then Cache([], [])
    else
      var n := |items| - 1;
      Added(Adds(items[..n], fates[..n], l), items[n], fates[n], l)
  }

  /** The adds that reached the index. */
  function Accepted(items: seq<Item>, fates: seq<AddFate>): seq<Item>
    requires |items| == |fates|
  {
    if items == [] then []
    else
      var n := |items| - 1;
      Accepted(items[..n], fates[..n]) + (if fates[n].encodes && fates[n].indexes then [items[n]] else [])
  }

  ghost predicate IsSuffix<T>(s: seq<T>, all: seq<T>) {
    |s| <= |all| && s == all[|all| - |s|..]
  }

  lemma SuffixSnoc<T>(s: seq<T>, all: seq<T>, x: T)
    requires IsSuffix(s, all)
    ensures IsSuffix(s + [x], all + [x])
  {
  }

  lemma LastIsSuffix<T>(s: seq<T>, k: int)
    ensures IsSuffix(Last(s, k), s)
  {
  }

  lemma SuffixTransitive<T>(a: seq<T>, b: seq<T>, c: seq<T>)
    requires IsSuffix(a, b) && IsSuffix(b, c)
    ensures IsSuffix(a, c)
  {
  }

  /** Whatever fails on the way, the list is the newest part of what was accepted, aligned with its index. */
  lemma {:induction false} CacheIsNewestSuffix(items: seq<Item>, fates: seq<AddFate>, l: Limits)
    requires |items| == |fates|
    ensures Aligned(Adds(items, fates, l))
    ensures IsSuffix(Adds(items, fates, l).data, Accepted(items, fates))
  {
    if items != [] {
      var n := |items| - 1;
      CacheIsNewestSuffix(items[..n], fates[..n], l);
      var c := Adds(items[..n], fates[..n], l);
      AddKeepsAligned(c, items[n], fates[n], l);
      if fates[n].encodes && fates[n].indexes {
        SuffixSnoc(c.data, Accepted(items[..n], fates[..n]), items[n]);
        LastIsSuffix(c.data + [items[n]], l.maxSize - l.evictionCount);
        SuffixTransitive(Last(c.data + [items[n]], l.maxSize - l.evictionCount), c.data + [items[n]],
                         Accepted(items, fates));
      }
    }
  }

  /** Entries left after n undisturbed adds. */
  function Size(n: nat, l: Limits): int
    requires 0 < l.evictionCount < l.maxSize
  {
    if n <= l.maxSize then n
    else (l.maxSize - l.evictionCount) + (n - l.maxSize - 1) % (l.evictionCount + 1)
  }

  lemma SizeNext(n: nat, l: Limits)
    requires 0 < l.evictionCount < l.maxSize
    ensures Size(n, l) <= l.maxSize
    ensures Size(n + 1, l) == if Size(n, l) == l.maxSize then l.maxSize - l.evictionCount else Size(n, l) + 1
  {
    if n > l.maxSize {
      ModNext(n - l.maxSize - 1, l.evictionCount + 1);
    }
  }

  lemma ModNext(a: nat, m: nat)
    requires m > 0
    ensures (a + 1) % m == if a % m == m - 1 then 0 else a % m + 1
  {
    if a % m == m - 1 {
      DivisionIsUnique(a + 1, m, a / m + 1, 0);
    } else {
      DivisionIsUnique(a + 1, m, a / m, a % m + 1);
    }
  }

  lemma DivisionIsUnique(a: nat, m: nat, q: int, r: nat)
    requires r < m && a == q * m + r
    ensures a % m == r
  {
    var k := a / m - q;
    assert k * m == r - a % m;
    assert k >= 1 ==> k * m >= m;
    assert k <= -1 ==> k * m + m <= 0;
  }

  function Smooth(n: nat): seq<AddFate> {
    seq(n, _ => SMOOTH)
  }

  /** The newest `Size(n)` of the n added entries, and their vectors. */
  ghost predicate NewestOf(c: Cache, items: seq<Item>, l: Limits)
    requires 0 < l.evictionCount < l.maxSize
  {
    |c.data| == Size(|items|, l) && IsSuffix(c.data, items) && Aligned(c)
  }

  lemma SmoothAdd(c: Cache, items: seq<Item>, item: Item, l: Limits)
    requires 0 < l.evictionCount < l.maxSize && NewestOf(c, items, l)
    ensures NewestOf(Added(c, item, SMOOTH, l), items + [item], l)
  {
    SizeNext(|items|, l);
    AddKeepsAligned(c, item, SMOOTH, l);
    SuffixSnoc(c.data, items, item);
    LastIsSuffix(c.data + [item], l.maxSize - l.evictionCount);
    SuffixTransitive(Last(c.data + [item], l.maxSize - l.evictionCount), c.data + [item], items + [item]);
  }

  /**
    Without failures the cache holds exactly the newest `Size(n)` of n added entries: it
    fills up to the maximum, then saw-tooths between keep-count and maximum.
  */
  lemma {:induction false} UndisturbedSize(items: seq<Item>, l: Limits)
    requires 0 < l.evictionCount < l.maxSize
    ensures NewestOf(Adds(items, Smooth(|items|), l), items, l)
  {
    if items != [] {
      var n := |items| - 1;
      assert Smooth(n + 1)[..n] == Smooth(n) && items == items[..n] + [items[n]];
      UndisturbedSize(items[..n], l);
      SmoothAdd(Adds(items[..n], Smooth(n), l), items[..n], items[n], l);
    }
  }

  /** Every eviction that is due succeeds. */
  predicate AllEvict(fates: seq<AddFate>) {
    forall i :: 0 <= i < |fates| ==> fates[i].evicts
  }

  /** No run of adds, failed or not, leaves more entries than the maximum. */
  ghost predicate Bounded(l: Limits) {
    forall items: seq<Item>, fates: seq<AddFate> ::
      |items| == |fates| && AllEvict(fates) ==> |Adds(items, fates, l).data| <= l.maxSize
  }

  lemma EvictFits(c: Cache, l: Limits)
    requires l.maxSize >= 0 && l.evictionCount >= 0 && l.evictionCount != l.maxSize && |c.data| <= l.maxSize + 1
    ensures |Evict(c, l).data| <= l.maxSize
  {
  }

  lemma {:induction false} AddsFit(items: seq<Item>, fates: seq<AddFate>, l: Limits)
    requires |items| == |fates| && AllEvict(fates)
    requires l.maxSize >= 0 && l.evictionCount >= 0 && l.evictionCount != l.maxSize
    ensures |Adds(items, fates, l).data| <= l.maxSize && Aligned(Adds(items, fates, l))
  {
    if items != [] {
      var n := |items| - 1;
      AddsFit(items[..n], fates[..n], l);
      var c := Adds(items[..n], fates[..n], l);
      AddKeepsAligned(c, items[n], fates[n], l);
      if fates[n].encodes && fates[n].indexes {
        EvictFits(Cache(c.data + [items[n]], c.index + [items[n].vec]), l);
      }
    }
  }

  /**
    With the two counts equal `[-0:]` keeps every entry, however many. Otherwise the first
    maximum minus count entries stay, and with a negative count that is past the maximum.
  */
  lemma {:induction false} NeverEvicts(items: seq<Item>, l: Limits)
    requires l.maxSize >= 0
    requires l.evictionCount == l.maxSize || |items| <= l.maxSize - l.evictionCount
    ensures Adds(items, Smooth(|items|), l).data == items
  {
    if items != [] {
      var n := |items| - 1;
      assert Smooth(n + 1)[..n] == Smooth(n);
      NeverEvicts(items[..n], l);
    }
  }

  /**
    The cache keeps to its maximum exactly when that is not negative, and the eviction count is
    neither negative nor equal to it.
  */
  lemma BoundedIff(l: Limits)
    ensures Bounded(l) <==> l.maxSize >= 0 && l.evictionCount >= 0 && l.evictionCount != l.maxSize
  {
    if l.maxSize < 0 {
      assert AllEvict([]) && |Adds([], [], l).data| > l.maxSize;
    } else if l.evictionCount >= 0 && l.evictionCount != l.maxSize {
      forall items: seq<Item>, fates: seq<AddFate> | |items| == |fates| && AllEvict(fates)
        ensures |Adds(items, fates, l).data| <= l.maxSize
      {
        AddsFit(items, fates, l);
      }
    } else {
      var items := seq(l.maxSize + 1, _ => Item(Meta("", "", None, 0.0), []));
      NeverEvicts(items, l);
      assert AllEvict(Smooth(|items|)) && |Adds(items, Smooth(|items|), l).data| == l.maxSize + 1;
    }
  }

  // ------------------------------------------------------------------------- search

  const TOP: nat := 20

  /** A query: its vector, the filters (absent or empty means unfiltered), the clock, the settings. */
  datatype Query = Query(vec: Vec, scope: Option<string>, intent: Option<string>, now: real, threshold: real, ttl: real)

  function Similarity(c: Cache, q: Query, i: nat): real
    requires i < |c.index|
  {
    Dot(q.vec, c.index[i])
  }

  predicate Set(filter: Option<string>) {
    filter.Some? && filter.value != ""
  }

  predicate Qualifies(c: Cache, q: Query, i: nat)
    requires |c.index| == |c.data| && i < |c.data|
  {
    && Similarity(c, q, i) >= q.threshold
    && (Set(q.scope) ==> c.data[i].meta.user == q.scope)
    && (Set(q.intent) ==> Some(c.data[i].meta.intent) == q.intent)
    && q.now - c.data[i].meta.timestamp <= q.ttl
  }

  /**
    What an entry needs to be served: it is similar enough, belongs to the user asked for and
    to the intent asked for, where those are given and not empty, and is not too old.
  */
  ghost predicate Fits(q: Query, item: Item) {
    && Dot(q.vec, item.vec) >= q.threshold
    && (q.scope.Some? && q.scope.value != "" ==> item.meta.user.Some? && item.meta.user.value == q.scope.value)
    && (q.intent.Some? && q.intent.value != "" ==> item.meta.intent == q.intent.value)
    && q.now - item.meta.timestamp <= q.ttl
  }

  lemma QualifiesIff(c: Cache, q: Query)
    requires Aligned(c)
    ensures forall i: nat :: i < |c.data| ==> (Qualifies(c, q, i) <==> Fits(q, c.data[i]))
  {
  }

  /** A correct answer of the index: its 20 most similar positions (all, if fewer), best first. */
  ghost predicate IsTopK(c: Cache, q: Query, hits: seq<nat>) {
    && |hits| == (if |c.index| < TOP then |c.index| else TOP)
    && (forall a :: 0 <= a < |hits| ==> hits[a] < |c.index|)
    && (forall a, b :: 0 <= a < b < |hits| ==>
          hits[a] != hits[b] && Similarity(c, q, hits[a]) >= Similarity(c, q, hits[b]))
    && (forall i: nat, a :: i < |c.index| && i !in hits && 0 <= a < |hits| ==>
          Similarity(c, q, i) <= Similarity(c, q, hits[a]))
  }

  /** The first of the hits that qualifies. */
  function Pick(c: Cache, q: Query, hits: seq<nat>): (r: Option<nat>)
    requires |c.index| == |c.data| && forall a :: 0 <= a < |hits| ==> hits[a] < |c.data|
    ensures r.Some? ==> r.value < |c.data|
  {
    if hits == [] then None
    else if Qualifies(c, q, hits[0]) then Some(hits[0])
    else Pick(c, q, hits[1..])
  }

  /** What a search gives back: the metadata of the first qualifying hit. */
  function Served(c: Cache, q: Query, hits: seq<nat>): Option<Meta>
    requires |c.index| == |c.data| && forall a :: 0 <= a < |hits| ==> hits[a] < |c.data|
  {
    match Pick(c, q, hits)
    case Some(i) => Some(c.data[i].meta)
    case None => None
  }

  lemma {:induction false} PickMeaning(c: Cache, q: Query, hits: seq<nat>) returns (a: nat)
    requires |c.index| == |c.data| && forall a :: 0 <= a < |hits| ==> hits[a] < |c.data|
    ensures a <= |hits| && Pick(c, q, hits) == (if a < |hits| then Some(hits[a]) else None)
    ensures forall b :: 0 <= b < a ==> !Qualifies(c, q, hits[b])
    ensures a < |hits| ==> Qualifies(c, q, hits[a])
  {
    if hits == [] || Qualifies(c, q, hits[0]) {
      a := 0;
    } else {
      a := PickMeaning(c, q, hits[1..]);
      a := a + 1;
    }
  }

  /** The search takes the first hit that fits, and none only when none does. */
  lemma PickFits(c: Cache, q: Query, hits: seq<nat>) returns (a: nat)
    requires Aligned(c) && forall a :: 0 <= a < |hits| ==> hits[a] < |c.data|
    ensures a <= |hits| && Pick(c, q, hits) == (if a < |hits| then Some(hits[a]) else None)
    ensures forall b :: 0 <= b < a ==> !Fits(q, c.data[hits[b]])
    ensures a < |hits| ==> Fits(q, c.data[hits[a]])
  {
    a := PickMeaning(c, q, hits);
    QualifiesIff(c, q);
  }

  /** The first n list positions, as a set. */
  function UpTo(n: nat): (s: set<nat>)
    ensures |s| == n && forall i: nat :: i in s <==> i < n
  {
    if n == 0 then {} else UpTo(n - 1) + {n - 1}
  }

  /** The disqualified entries at least as similar to the query as entry b. */
  ghost function Outranking(c: Cache, q: Query, b: nat): set<nat>
    requires b < |c.data|
  {
    set i | i in UpTo(|c.data|) && !Fits(q, c.data[i]) && Dot(q.vec, c.data[i].vec) >= Dot(q.vec, c.data[b].vec)
  }

  /** The position served: its entry fits, and no entry that fits is more similar. */
  ghost predicate BestFit(c: Cache, q: Query, i: nat) {
    && i < |c.data| && Fits(q, c.data[i])
    && forall j: nat :: j < |c.data| && Fits(q, c.data[j]) ==> Dot(q.vec, c.data[j].vec) <= Dot(q.vec, c.data[i].vec)
  }

  /** A served entry meets the four conditions, and no entry that does is more similar. */
  lemma ServedIsBest(c: Cache, q: Query, hits: seq<nat>, i: nat)
    requires Aligned(c) && IsTopK(c, q, hits) && Pick(c, q, hits) == Some(i)
    ensures i < |c.data| && Dot(q.vec, c.data[i].vec) >= q.threshold && q.now - c.data[i].meta.timestamp <= q.ttl
    ensures q.scope.Some? && q.scope.value != "" ==> c.data[i].meta.user == q.scope
    ensures q.intent.Some? && q.intent.value != "" ==> Some(c.data[i].meta.intent) == q.intent
    ensures BestFit(c, q, i)
  {
    var a := PickFits(c, q, hits);
    forall j: nat | j < |c.data| && Fits(q, c.data[j])
      ensures Similarity(c, q, j) <= Similarity(c, q, i)
    {
      if j in hits {
        var b :| 0 <= b < |hits| && hits[b] == j;
        assert a <= b;
      }
    }
  }

  lemma {:induction false} DistinctSize(hits: seq<nat>, within: set<nat>)
    requires forall a, b :: 0 <= a < b < |hits| ==> hits[a] != hits[b]
    requires forall a :: 0 <= a < |hits| ==> hits[a] in within
    ensures |hits| <= |within|
  {
    if hits != [] {
      var n := |hits| - 1;
      DistinctSize(hits[..n], within - {hits[n]});
    }
  }

  /** An entry that fits is missed only when at least 20 that do not are as similar or more. */
  lemma MissNeedsTwenty(c: Cache, q: Query, hits: seq<nat>, b: nat)
    requires Aligned(c) && IsTopK(c, q, hits) && Pick(c, q, hits) == None
    requires b < |c.data| && Fits(q, c.data[b])
    ensures |Outranking(c, q, b)| >= 20
  {
    var a := PickFits(c, q, hits);
    assert b !in hits;
    if |c.index| < TOP {
      AllHit(c, q, hits, b);
    }
    forall k | 0 <= k < |hits|
      ensures hits[k] in Outranking(c, q, b)
    {
      assert !Fits(q, c.data[hits[k]]) && hits[k] in UpTo(|c.data|);
      assert Similarity(c, q, b) <= Similarity(c, q, hits[k]);
    }
    DistinctSize(hits, Outranking(c, q, b));
  }

  /** Fewer entries than the index returns: all of them are among the hits. */
  lemma AllHit(c: Cache, q: Query, hits: seq<nat>, b: nat)
    requires IsTopK(c, q, hits) && |hits| == |c.index| && b < |c.index|
    ensures b in hits
  {
    if b !in hits {
      DistinctSize(hits + [b], UpTo(|c.index|));
    }
  }

  /**
    Search agrees with a scan of the whole list whenever fewer than 20 entries that do not fit
    are as similar as the best one that does.
  */
  lemma SearchAgreesWithScan(c: Cache, q: Query, hits: seq<nat>, best: nat)
    requires Aligned(c) && IsTopK(c, q, hits)
    requires BestFit(c, q, best) && |Outranking(c, q, best)| < 20
    ensures Pick(c, q, hits).Some?
    ensures var i := Pick(c, q, hits).value;
            BestFit(c, q, i) && Dot(q.vec, c.data[i].vec) == Dot(q.vec, c.data[best].vec)
  {
    if Pick(c, q, hits) == None {
      MissNeedsTwenty(c, q, hits, best);
    }
    ServedIsBest(c, q, hits, Pick(c, q, hits).value);
  }

  /** What a search answers: the entry of a best fit among the hits, or nothing when no hit fits. */
  ghost predicate Answers(c: Cache, q: Query, hits: seq<nat>, found: Option<Meta>) {
    match found
    case Some(meta) => exists i: nat :: i in hits && BestFit(c, q, i) && c.data[i].meta == meta
    case None => forall a :: 0 <= a < |hits| && hits[a] < |c.data| ==> !Fits(q, c.data[hits[a]])
  }

  lemma ServedAnswers(c: Cache, q: Query, hits: seq<nat>)
    requires Aligned(c) && IsTopK(c, q, hits)
    ensures Answers(c, q, hits, Served(c, q, hits))
  {
    var a := PickFits(c, q, hits);
    if a < |hits| {
      ServedIsBest(c, q, hits, hits[a]);
      assert hits[a] in hits;
    }
  }

  /** `best` is the greatest positive similarity below the threshold among the hits, or 0 if there is none. */
  ghost predicate IsNearMiss(c: Cache, q: Query, hits: seq<nat>, best: real)
    requires forall a :: 0 <= a < |hits| ==> hits[a] < |c.index|
  {
    && (best == 0.0 || (best > 0.0 && exists a :: 0 <= a < |hits| && best == Similarity(c, q, hits[a]) < q.threshold))
    && forall a :: 0 <= a < |hits| && Similarity(c, q, hits[a]) < q.threshold ==> Similarity(c, q, hits[a]) <= best
  }

  lemma NearMissStep(c: Cache, q: Query, hits: seq<nat>, i: nat, best: real)
    requires i < |hits| && forall a :: 0 <= a < |hits| ==> hits[a] < |c.index|
    requires IsNearMiss(c, q, hits[..i], best)
    ensures var s := Similarity(c, q, hits[i]);
            IsNearMiss(c, q, hits[..i + 1], if s < q.threshold && s > best then s else best)
  {
    var s := Similarity(c, q, hits[i]);
    var longer := hits[..i + 1];
    assert longer[i] == hits[i] && longer == hits[..i] + [hits[i]];
    if best > 0.0 {
      var a :| 0 <= a < i && best == Similarity(c, q, hits[..i][a]) < q.threshold;
      assert longer[a] == hits[..i][a];
    }
    forall a | 0 <= a < |longer| && Similarity(c, q, longer[a]) < q.threshold
      ensures Similarity(c, q, longer[a]) <= (if s < q.threshold && s > best then s else best)
    {
      assert a < i ==> longer[a] == hits[..i][a];
    }
  }

  // ------------------------------------------------------------------- the service

  class SemanticCacheService {
    const limits: Limits
    const threshold: real
    const ttl: real
    const encode: string -> Vec
    var cacheData: seq<Item>
    var index: seq<Vec>
    // the query encodings, in insertion order, and their values
    var encodeKeys: seq<string>
    var encodeCache: map<string, Vec>

    constructor (limits: Limits, threshold: real, ttl: real, encode: string -> Vec)
      ensures Valid() && View() == Cache([], [])
      ensures this.limits == limits && this.threshold == threshold && this.ttl == ttl && this.encode == encode
    {
      this.limits, this.threshold, this.ttl, this.encode := limits, threshold, ttl, encode;
      cacheData, index, encodeKeys, encodeCache := [], [], [], map[];
    }

    function View(): Cache
      reads this
    {
      Cache(cacheData, index)
    }

    /** List and index agree; remembered encodings are right, and there are at most 1001. */
    ghost predicate Valid()
      reads this
    {
      && Aligned(View())
      && |encodeKeys| <= 1001
      && (forall a, b :: 0 <= a < b < |encodeKeys| ==> encodeKeys[a] != encodeKeys[b])
      && (forall k :: k in encodeCache <==> k in encodeKeys)
      && (forall k :: k in encodeCache ==> encodeCache[k] == encode(k))
    }

    /** Past 1000 remembered encodings the oldest 500 are dropped before the new one is kept. */
    method EncodeQuery(query: string) returns (vector: Vec)
      requires Valid()
      modifies this`encodeKeys, this`encodeCache
      ensures Valid() && vector == encode(query)
      ensures query in encodeCache
      ensures query in old(encodeCache) ==> encodeKeys == old(encodeKeys)
      ensures query !in old(encodeCache) ==>
                encodeKeys == (if |old(encodeKeys)| > 1000 then old(encodeKeys)[500..] else old(encodeKeys)) + [query]
    {
      if query in encodeCache {
        return encodeCache[query];
      }
      vector := encode(query);
      if |encodeKeys| > 1000 {
        var dropped := set k | k in encodeKeys[..500];
        assert encodeKeys == encodeKeys[..500] + encodeKeys[500..];
        encodeCache := encodeCache - dropped;
        encodeKeys := encodeKeys[500..];
        assert forall k :: k in encodeCache <==> k in encodeKeys;
      }
      encodeCache := encodeCache[query := vector];
      encodeKeys := encodeKeys + [query];
    }

    /** Rebuilds list and index from the newest entries; both are swapped at once, or neither. */
    method EvictOldest()
      requires Valid()
      modifies this`cacheData, this`index
      ensures Valid() && View() == Evict(old(View()), limits)
    {
      if |cacheData| <= limits.maxSize {
        return;
      }
      var keepCount := limits.maxSize - limits.evictionCount;
      var newData := Last(cacheData, keepCount);
      var newIndex: seq<Vec> := [];
      for i := 0 to |newData|
        invariant newIndex == Vectors(newData[..i])
      {
        newIndex := newIndex + [newData[i].vec];
        assert newData[..i + 1] == newData[..i] + [newData[i]];
      }
      assert newData[..|newData|] == newData;
      cacheData, index := newData, newIndex;
    }

    /** Appends to the list, then to the index; a failure in between rolls the list back. */
    method Add(query: string, response: string, intent: string, user: Option<string>, now: real, fate: AddFate)
      requires Valid()
      modifies this
      ensures Valid()
      ensures View() == Added(old(View()), Item(Meta(response, intent, user, now), encode(query)), fate, limits)
    {
      if !fate.encodes {
        return;
      }
      var vector := EncodeQuery(query);
      var item := Item(Meta(response, intent, user, now), vector);
      VectorsSnoc(cacheData, item);
      cacheData := cacheData + [item];
      if !fate.indexes {
        if |cacheData| > |index| {
          cacheData := cacheData[..|cacheData| - 1];
        }
        return;
      }
      index := index + [vector];
      if |cacheData| > limits.maxSize && fate.evicts {
        EvictOldest();
      }
    }

    /** `hits` is what the index answers for the encoded query. */
    method Search(query: string, scope: Option<string>, intent: Option<string>, now: real, hits: seq<nat>)
      returns (found: Option<Meta>, nearMiss: real)
      requires Valid()
      requires IsTopK(View(), Query(encode(query), scope, intent, now, threshold, ttl), hits)
      modifies this`encodeKeys, this`encodeCache
      ensures Valid()
      ensures found == Served(View(), Query(encode(query), scope, intent, now, threshold, ttl), hits)
      ensures Answers(View(), Query(encode(query), scope, intent, now, threshold, ttl), hits, found)
      ensures found == None ==> IsNearMiss(View(), Query(encode(query), scope, intent, now, threshold, ttl), hits,
          nearMiss)
    {
      var vector := EncodeQuery(query);
      found, nearMiss := Scan(Query(vector, scope, intent, now, threshold, ttl), hits);
      ServedAnswers(View(), Query(vector, scope, intent, now, threshold, ttl), hits);
    }

    /** Goes through the hits in order, and remembers the best near miss on the way. */
    method Scan(q: Query, hits: seq<nat>) returns (found: Option<Meta>, nearMiss: real)
      requires |index| == |cacheData| && forall a :: 0 <= a < |hits| ==> hits[a] < |index|
      ensures found == Served(View(), q, hits)
      ensures found == None ==> IsNearMiss(View(), q, hits, nearMiss)
    {
      nearMiss := 0.0;
      for i := 0 to |hits|
        invariant Pick(View(), q, hits) == Pick(View(), q, hits[i..])
        invariant IsNearMiss(View(), q, hits[..i], nearMiss)
      {
        var idx := hits[i];
        var similarity := Dot(q.vec, index[idx]);
        assert hits[i..][0] == idx && hits[i..][1..] == hits[i + 1..];
        NearMissStep(View(), q, hits, i, nearMiss);
        if similarity < q.threshold {
          if similarity > nearMiss {
            nearMiss := similarity;
          }
        } else {
          var meta := cacheData[idx].meta;
          var scoped := !Set(q.scope) || meta.user == q.scope;
          var intended := !Set(q.intent) || Some(meta.intent) == q.intent;
          if scoped && intended && q.now - meta.timestamp <= q.ttl {
            return Some(meta), nearMiss;
          }
        }
      }
      assert hits[..|hits|] == hits;
      found := None;
    }
  }
}
