/** The result cache of the search engine (app/search/engine.py:26-53, 58-99). */
module SearchCache {
  import opened Prelude

  /** Seconds of time.monotonic(). */
  type Instant = real

  datatype Item = Item(chunkId: string, score: real)

  datatype Response = Response(results: seq<Item>, query: string)

  datatype Entry = Entry(at: Instant, response: Response)

  type Table = map<string, Entry>

  // ---- The dictionary ------------------------------------------------------

  predicate Oldest(entries: Table, k: string) {
    k in entries && forall other | other in entries :: entries[k].at <= entries[other].at
  }

  /** Python's cache; ttl is search_cache_ttl and capacity search_cache_max. */
  class Cache {
    const ttl: real
    const capacity: int
    var entries: Table
    /** Every write so far, for the contracts only. */
    ghost var log: seq<Write>
    ghost var clock: Instant

    ghost predicate Valid()
      reads this
    {
      ttl > 0.0 ==> Agrees(log, entries, clock, ttl) && |entries| <= (if capacity >= 1 then capacity else 0)
    }

    constructor (ttl: real, capacity: int)
      ensures Valid() && entries == map[] && log == [] && clock == 0.0
      ensures this.ttl == ttl && this.capacity == capacity
    {
      this.ttl := ttl;
      this.capacity := capacity;
      entries := map[];
      log := [];
      clock := 0.0;
    }

    /** A hit is what was last written for the key, less than ttl ago; a stale entry is
        dropped; nothing else changes. */
    method Get(key: string, now: Instant) returns (hit: Option<Response>)
      requires Valid() && clock <= now
      modifies this
      ensures Valid() && clock == now && log == old(log)
      ensures hit.Some? <==> ttl > 0.0 && key in old(entries) && now - old(entries)[key].at < ttl
      ensures hit.Some? ==> entries == old(entries) && hit.value == old(entries)[key].response
      ensures hit == None ==> entries == if ttl > 0.0 then old(entries) - {key} else old(entries)
      ensures hit.Some? ==> FreshWrite(log, key, hit.value, now, ttl)
    {
      hit := None;
      if ttl > 0.0 {
        AgreesLater(log, entries, clock, now, ttl);
        if key in entries {
          if now - entries[key].at < ttl {
            hit := Some(entries[key].response);
          } else {
            DropStale(log, entries, key, now, ttl);
            entries := entries - {key};
          }
        }
        assert entries == if hit.Some? then old(entries) else old(entries) - {key};
      }
      clock := now;
    }

    /** Makes room by deleting an oldest entry, then stores.  Fails, with nothing changed,
        exactly when there is no room at all: min() of an empty dictionary raises. */
    method Set(key: string, response: Response, now: Instant, ghost minScore: real) returns (ok: bool)
      requires Valid() && clock <= now
      modifies this
      ensures Valid() && clock == now
      ensures ok <==> ttl <= 0.0 || capacity >= 1
      ensures ttl <= 0.0 || !ok ==> entries == old(entries) && log == old(log)
      ensures ttl > 0.0 && ok ==>
        && log == old(log) + [Write(key, response, now, minScore)]
        && key in entries && entries[key] == Entry(now, response)
        && if |old(entries)| < capacity then entries == old(entries)[key := Entry(now, response)]
           else exists k :: Oldest(old(entries), k) && entries == (old(entries) - {k})[key := Entry(now, response)]
    {
      clock := now;
      if ttl <= 0.0 {
        return true;
      }
      AgreesLater(log, entries, old(clock), now, ttl);
      if |entries| >= capacity {
        if entries == map[] {
          return false;
        }
        var keys := entries.Keys;
        SomeOldest(entries, keys);
        var oldest :| oldest in entries && Oldest(entries, oldest);
        EvictOldest(log, entries, oldest, now, ttl);
        assert entries.Keys - {oldest} == (entries - {oldest}).Keys;
        entries := entries - {oldest};
      }
      StoreNew(log, entries, Write(key, response, now, minScore), ttl);
      log := log + [Write(key, response, now, minScore)];
      assert entries[key := Entry(now, response)].Keys <= entries.Keys + {key};
      SubsetSize(entries[key := Entry(now, response)].Keys, entries.Keys + {key});
      entries := entries[key := Entry(now, response)];
      ok := true;
    }
  }

  lemma {:induction false} SomeOldest(entries: Table, keys: set<string>)
    requires keys != {} && keys <= entries.Keys
    ensures exists k :: k in keys && forall other | other in keys :: entries[k].at <= entries[other].at
    decreases keys
  {
    var k :| k in keys;
    if keys != {k} {
      SomeOldest(entries, keys - {k});
      var best :| best in keys - {k} && forall other | other in keys - {k} :: entries[best].at <= entries[other].at;
      var winner := if entries[k].at <= entries[best].at then k else best;
      assert forall other | other in keys :: other == k || other in keys - {k};
      assert winner in keys && forall other | other in keys :: entries[winner].at <= entries[other].at;
    }
  }

  // ---- What the entries mean -----------------------------------------------

  /** minScore is the threshold of the search that stored the response. */
  datatype Write = Write(key: string, response: Response, at: Instant, minScore: real)

  /** The last write of the key. */
  function LastWrite(log: seq<Write>, key: string): Option<Write> {
    if log == [] then None
    else if log[|log| - 1].key == key then Some(log[|log| - 1])
    else LastWrite(log[..|log| - 1], key)
  }

  /** search stored the response for the key less than ttl before now, and nothing since. */
  predicate FreshWrite(log: seq<Write>, key: string, response: Response, now: Instant, ttl: real) {
    var last := LastWrite(log, key);
    last.Some? && last.value.response == response && now - last.value.at < ttl
  }

  /** Entries are last writes; a last write that is missing is stale, or nothing older
      is kept. */
  ghost predicate Agrees(log: seq<Write>, entries: Table, now: Instant, ttl: real) {
    && (forall k | k in entries :: IsOf(entries[k], LastWrite(log, k)))
    && (forall w | w in log :: w.at <= now)
    && forall k | k !in entries && LastWrite(log, k).Some? :: Excused(entries, LastWrite(log, k).value, now, ttl)
  }

  predicate IsOf(entry: Entry, last: Option<Write>) {
    last.Some? && entry == Entry(last.value.at, last.value.response)
  }

  ghost predicate Excused(entries: Table, w: Write, now: Instant, ttl: real) {
    now - w.at >= ttl || forall k | k in entries :: w.at <= entries[k].at
  }

  lemma AgreesLater(log: seq<Write>, entries: Table, before: Instant, now: Instant, ttl: real)
    requires Agrees(log, entries, before, ttl) && before <= now
    ensures Agrees(log, entries, now, ttl)
  {
    forall k | k !in entries && LastWrite(log, k).Some? ensures Excused(entries, LastWrite(log, k).value, now, ttl) {
      assert Excused(entries, LastWrite(log, k).value, before, ttl);
    }
  }

  lemma DropStale(log: seq<Write>, entries: Table, key: string, now: Instant, ttl: real)
    requires Agrees(log, entries, now, ttl) && key in entries && now - entries[key].at >= ttl
    ensures Agrees(log, entries - {key}, now, ttl)
  {
    forall k | k !in entries - {key} && LastWrite(log, k).Some?
      ensures Excused(entries - {key}, LastWrite(log, k).value, now, ttl)
    {
      assert k != key ==> Excused(entries, LastWrite(log, k).value, now, ttl);
    }
  }

  lemma EvictOldest(log: seq<Write>, entries: Table, oldest: string, now: Instant, ttl: real)
    requires Agrees(log, entries, now, ttl) && Oldest(entries, oldest)
    ensures Agrees(log, entries - {oldest}, now, ttl)
  {
    forall k | k !in entries - {oldest} && LastWrite(log, k).Some?
      ensures Excused(entries - {oldest}, LastWrite(log, k).value, now, ttl)
    {
      assert k != oldest ==> Excused(entries, LastWrite(log, k).value, now, ttl);
    }
  }

  lemma StoreNew(log: seq<Write>, entries: Table, w: Write, ttl: real)
    requires Agrees(log, entries, w.at, ttl)
    ensures Agrees(log + [w], entries[w.key := Entry(w.at, w.response)], w.at, ttl)
  {
    var log1, entries1 := log + [w], entries[w.key := Entry(w.at, w.response)];
    assert log1[..|log|] == log;
    assert forall k :: LastWrite(log1, k) == if k == w.key then Some(w) else LastWrite(log, k);
    forall k | k !in entries1 && LastWrite(log1, k).Some?
      ensures Excused(entries1, LastWrite(log1, k).value, w.at, ttl)
    {
      LastWriteLogged(log, k);
      assert Excused(entries, LastWrite(log, k).value, w.at, ttl);
    }
  }

  lemma {:induction false} LastWriteLogged(log: seq<Write>, key: string)
    ensures LastWrite(log, key).Some? ==> LastWrite(log, key).value in log && LastWrite(log, key).value.key == key
  {
    if log != [] {
      LastWriteLogged(log[..|log| - 1], key);
    }
  }

  // ---- Keys ----------------------------------------------------------------

  function Digit(n: nat): char
    requires n < 10
  {
    "0123456789"[n]
  }

  function Decimal(n: nat): string {
    if n < 10 then [Digit(n)] else Decimal(n / 10) + [Digit(n % 10)]
  }

  /** document_id or ''. */
  function DocPart(doc: Option<string>): string {
    if doc.Some? then doc.value else ""
  }

  /** top_k is at least 1 in every request, hence a natural number here. */
  function CacheKey(query: string, mode: string, tenant: string, topK: nat, doc: Option<string>): string {
    tenant + ":" + (mode + ":" + (Decimal(topK) + ":" + (DocPart(doc) + ":" + query)))
  }

  /** What a key looks like. */
  lemma KeyLooks()
    ensures CacheKey("what is it", "hybrid", "acme", 10, None) == "acme:hybrid:10::what is it"
    ensures CacheKey("what is it", "hybrid", "acme", 10, Some("d7")) == "acme:hybrid:10:d7:what is it"
  {
    assert Decimal(10) == "1" + "0";
  }

  lemma {:induction false} SplitAtColon(a: string, x: string, b: string, y: string)
    requires ':' !in a && ':' !in b && a + ":" + x == b + ":" + y
    ensures a == b && x == y
  {
    var s, t := a + ":" + x, b + ":" + y;
    if a == [] || b == [] {
      assert s[0] == t[0];
      assert x == s[1..] && y == t[1..];
    } else {
      assert s[1..] == a[1..] + ":" + x && t[1..] == b[1..] + ":" + y;
      assert s[0] == a[0] && t[0] == b[0];
      SplitAtColon(a[1..], x, b[1..], y);
      assert a == [a[0]] + a[1..] && b == [b[0]] + b[1..];
    }
  }

  lemma {:induction false} DecimalHasNoColon(n: nat)
    ensures ':' !in Decimal(n) && Decimal(n) != []
  {
    if n >= 10 {
      DecimalHasNoColon(n / 10);
    }
  }

  lemma DecimalParts(n: nat)
    ensures var d := Decimal(n);
      d[|d| - 1] == Digit(n % 10) && d[..|d| - 1] == if n < 10 then [] else Decimal(n / 10)
  {
  }

  lemma {:induction false} DecimalInjective(m: nat, n: nat)
    requires Decimal(m) == Decimal(n)
    ensures m == n
  {
    DecimalParts(m);
    DecimalParts(n);
    assert m % 10 == n % 10;
    DecimalHasNoColon(m / 10);
    DecimalHasNoColon(n / 10);
    if m >= 10 {
      DecimalInjective(m / 10, n / 10);
    }
  }

  /** Requests with equal keys agree on tenant, mode and top_k, and on document and query
      too when the document ids have no colon. */
  lemma EqualKeys(q: string, m: string, t: string, k: nat, d: Option<string>, q': string, m': string, t': string,
                  k': nat, d': Option<string>)
    requires ':' !in t && ':' !in t' && ':' !in m && ':' !in m'
    requires CacheKey(q, m, t, k, d) == CacheKey(q', m', t', k', d')
    ensures t == t' && m == m' && k == k'
    ensures ':' !in DocPart(d) && ':' !in DocPart(d') ==> DocPart(d) == DocPart(d') && q == q'
  {
    var rest, rest' := DocPart(d) + ":" + q, DocPart(d') + ":" + q';
    var tail, tail' := Decimal(k) + ":" + rest, Decimal(k') + ":" + rest';
    SplitAtColon(t, m + ":" + tail, t', m' + ":" + tail');
    SplitAtColon(m, tail, m', tail');
    DecimalHasNoColon(k);
    DecimalHasNoColon(k');
    SplitAtColon(Decimal(k), rest, Decimal(k'), rest');
    DecimalInjective(k, k');
    if ':' !in DocPart(d) && ':' !in DocPart(d') {
      SplitAtColon(DocPart(d), q, DocPart(d'), q');
    }
  }

  /** Which document is asked about and what, as the key says it. */
  function Asked(doc: Option<string>, query: string): string {
    DocPart(doc) + ":" + query
  }

  lemma SameKeyIffSameAsked(q: string, m: string, t: string, k: nat, d: Option<string>, q': string, d': Option<string>)
    ensures CacheKey(q, m, t, k, d) == CacheKey(q', m, t, k, d') <==> Asked(d, q) == Asked(d', q')
  {
    var front := t + ":" + (m + ":" + (Decimal(k) + ":"));
    assert CacheKey(q, m, t, k, d) == front + Asked(d, q) && CacheKey(q', m, t, k, d') == front + Asked(d', q');
    assert (front + Asked(d, q))[|front|..] == Asked(d, q) && (front + Asked(d', q'))[|front|..] == Asked(d', q');
  }

  lemma ColonAt(s: string, i: nat)
    requires i < |s| && s[i] == ':'
    ensures s == s[..i] + ":" + s[i + 1..]
  {
  }

  lemma ColonInId(q: string, m: string, t: string, k: nat, d: Option<string>, i: nat)
    requires i < |DocPart(d)| && DocPart(d)[i] == ':'
    ensures CacheKey(DocPart(d)[i + 1..] + ":" + q, m, t, k, Some(DocPart(d)[..i])) == CacheKey(q, m, t, k, d)
  {
    ColonAt(DocPart(d), i);
    SameKeyIffSameAsked(DocPart(d)[i + 1..] + ":" + q, m, t, k, Some(DocPart(d)[..i]), q, d);
  }

  lemma ColonInQuery(q: string, m: string, t: string, k: nat, d: Option<string>, i: nat)
    requires i < |q| && q[i] == ':'
    ensures CacheKey(q[i + 1..], m, t, k, Some(DocPart(d) + ":" + q[..i])) == CacheKey(q, m, t, k, d)
  {
    ColonAt(q, i);
    SameKeyIffSameAsked(q[i + 1..], m, t, k, Some(DocPart(d) + ":" + q[..i]), q, d);
  }

  /** Another document and query with the same key exist if and only if the document id or
      the query has a colon. */
  lemma SharedKeyIff(q: string, m: string, t: string, k: nat, d: Option<string>)
    ensures (exists q', d' :: (DocPart(d'), q') != (DocPart(d), q)
                              && CacheKey(q', m, t, k, d') == CacheKey(q, m, t, k, d))
      <==> ':' in DocPart(d) || ':' in q
  {
    if i: nat :| i < |DocPart(d)| && DocPart(d)[i] == ':' {
      ColonInId(q, m, t, k, d, i);
    } else if i: nat :| i < |q| && q[i] == ':' {
      ColonInQuery(q, m, t, k, d, i);
    } else {
      forall q', d' | CacheKey(q', m, t, k, d') == CacheKey(q, m, t, k, d)
        ensures DocPart(d') == DocPart(d) && q' == q
      {
        SameKeyIffSameAsked(q', m, t, k, d', q, d);
        OnlyColon(DocPart(d), q, DocPart(d'), q');
      }
    }
  }

  lemma OnlyColon(a: string, x: string, b: string, y: string)
    requires ':' !in a && ':' !in x && a + ":" + x == b + ":" + y
    ensures a == b && x == y
  {
    assert (b + ":" + y)[|b|] == ':';
    assert |b| == |a|;
    assert (a + ":" + x)[..|a|] == a && (b + ":" + y)[..|b|] == b;
    assert (a + ":" + x)[|a| + 1..] == x && (b + ":" + y)[|b| + 1..] == y;
  }

  /** Searches in two different documents can share a key if and only if one id followed by
      a colon begins the other id. */
  lemma IdsShareKeyIff(x: string, y: string, m: string, t: string, k: nat)
    requires x != y
    ensures (exists q, q' :: CacheKey(q, m, t, k, Some(x)) == CacheKey(q', m, t, k, Some(y)))
      <==> x + ":" <= y || y + ":" <= x
  {
    if x + ":" <= y {
      LongerIdShares(x, y, m, t, k);
    } else if y + ":" <= x {
      LongerIdShares(y, x, m, t, k);
    } else {
      forall q, q' ensures CacheKey(q, m, t, k, Some(x)) != CacheKey(q', m, t, k, Some(y)) {
        SameKeyIffSameAsked(q, m, t, k, Some(x), q', Some(y));
        SameTextBegins(x, q, y, q');
        SameTextBegins(y, q', x, q);
      }
    }
  }

  lemma LongerIdShares(x: string, y: string, m: string, t: string, k: nat)
    requires x + ":" <= y
    ensures CacheKey(y[|x| + 1..] + ":", m, t, k, Some(x)) == CacheKey("", m, t, k, Some(y))
  {
    assert y == x + ":" + y[|x| + 1..];
    SameKeyIffSameAsked(y[|x| + 1..] + ":", m, t, k, Some(x), "", Some(y));
  }

  lemma SameTextBegins(x: string, q: string, y: string, q': string)
    ensures x + ":" + q == y + ":" + q' ==> (|x| < |y| ==> x + ":" <= y) && (|x| == |y| ==> x == y)
  {
    if x + ":" + q == y + ":" + q' {
      assert (x + ":" + q)[..|x|] == x && (y + ":" + q')[..|y|] == y;
      assert |x| < |y| ==> (x + ":" + q)[..|x| + 1] == x + ":" && (y + ":" + q')[..|x| + 1] == y[..|x| + 1];
    }
  }

  // ---- search --------------------------------------------------------------

  function AtLeast(results: seq<Item>, minScore: real): seq<Item> {
    if results == [] then []
    else
      var last := results[|results| - 1];
      AtLeast(results[..|results| - 1], minScore) + if last.score >= minScore then [last] else []
  }

  /** A threshold is honoured by every fresh answer, and nothing else is dropped. */
  lemma {:induction false} AtLeastKeepsExactly(results: seq<Item>, minScore: real) returns (positions: seq<nat>)
    ensures Picks(results, AtLeast(results, minScore), (x: Item) => x.score >= minScore, (x: Item) => x, positions)
  {
    positions := [];
    if results != [] {
      var init, last := results[..|results| - 1], results[|results| - 1];
      assert results == init + [last];
      positions := AtLeastKeepsExactly(init, minScore);
      OneMorePicked(init, last, AtLeast(init, minScore), (x: Item) => x.score >= minScore, (x: Item) => x, positions);
      AtLeastOfOneMore(init, last, minScore);
      if last.score >= minScore {
        positions := positions + [|init|];
      }
    }
  }

  lemma AtLeastOfOneMore(init: seq<Item>, last: Item, minScore: real)
    ensures AtLeast(init + [last], minScore) == AtLeast(init, minScore) + if last.score >= minScore then [last] else []
  {
    assert (init + [last])[..|init|] == init;
  }

  predicate AllReach(results: seq<Item>, minScore: real) {
    forall i | i in results :: i.score >= minScore
  }

  /** Every stored response reaches the threshold it was asked for with. */
  ghost predicate Filtered(log: seq<Write>) {
    forall w | w in log && w.minScore > 0.0 :: AllReach(w.response.results, w.minScore)
  }

  predicate Fresh(entries: Table, key: string, now: Instant, ttl: real) {
    ttl > 0.0 && key in entries && now - entries[key].at < ttl
  }

  /** A cache call of another search. */
  datatype Call =
    | Lookup(key: string, at: Instant)
    | Storing(key: string, response: Response, at: Instant, minScore: real)

  /** The calls come in this order, and each stored response was filtered. */
  predicate InOrder(calls: seq<Call>, start: Instant, end: Instant)
    decreases |calls|
  {
    if calls == [] then start <= end
    else
      && start <= calls[0].at && InOrder(calls[1..], calls[0].at, end)
      && (calls[0].Storing? && calls[0].minScore > 0.0 ==> AllReach(calls[0].response.results, calls[0].minScore))
  }

  /** What other searches do to the cache while this one waits. */
  method OtherSearches(cache: Cache, calls: seq<Call>, end: Instant)
    requires cache.Valid() && Filtered(cache.log) && InOrder(calls, cache.clock, end)
    modifies cache
    ensures cache.Valid() && Filtered(cache.log) && old(cache.clock) <= cache.clock <= end
    ensures old(cache.log) <= cache.log
  {
    var rest := calls;
    while rest != []
      invariant cache.Valid() && Filtered(cache.log) && InOrder(rest, cache.clock, end)
      invariant old(cache.clock) <= cache.clock && old(cache.log) <= cache.log
      decreases |rest|
    {
      match rest[0] {
        case Lookup(key, at) =>
          var hit := cache.Get(key, at);
        case Storing(key, response, at, minScore) =>
          var ok := cache.Set(key, response, at, minScore);
      }
      rest := rest[1..];
    }
  }

  /** search(); found is what the retrieval of the mode returns, tabular answers left
      out, and others are the cache calls of other searches meanwhile.  None stands for the
      exception of a cache without room. */
  method Search(cache: Cache, query: string, tenant: string, mode: string, topK: nat, minScore: real,
                doc: Option<string>, found: seq<Item>, others: seq<Call>, start: Instant, end: Instant)
    returns (r: Option<Response>)
    requires cache.Valid() && Filtered(cache.log) && cache.clock <= start && InOrder(others, start, end)
    modifies cache
    ensures cache.Valid() && Filtered(cache.log) && start <= cache.clock <= end && old(cache.log) <= cache.log
    ensures var key := CacheKey(query, mode, tenant, topK, doc);
      if Fresh(old(cache.entries), key, start, cache.ttl)
      then
        && r == Some(old(cache.entries)[key].response) && FreshWrite(cache.log, key, r.value, start, cache.ttl)
        && cache.entries == old(cache.entries)
      else
        && (r == None <==> cache.ttl > 0.0 && cache.capacity < 1)
        && (r.Some? ==> r.value == Response(if minScore > 0.0 then AtLeast(found, minScore) else found, query))
        && (r.Some? && cache.ttl > 0.0 ==> key in cache.entries && cache.entries[key] == Entry(end, r.value))
    // the threshold is honoured exactly on a miss or when the stored answer happens to reach it
    ensures var key := CacheKey(query, mode, tenant, topK, doc);
      minScore > 0.0 && r.Some? ==>
        (AllReach(r.value.results, minScore) <==>
         || !Fresh(old(cache.entries), key, start, cache.ttl)
         || AllReach(old(cache.entries)[key].response.results, minScore))
    // and always when nobody asked under this key with a lower threshold before
    ensures var key := CacheKey(query, mode, tenant, topK, doc);
      minScore > 0.0 && r.Some? && (forall w | w in old(cache.log) && w.key == key :: w.minScore >= minScore) ==>
        AllReach(r.value.results, minScore)
  {
    InOrderEnds(others, start, end);
    var key := CacheKey(query, mode, tenant, topK, doc);
    StoredAnswerReaches(cache.log, key, minScore);
    assert Fresh(cache.entries, key, start, cache.ttl) ==> IsOf(cache.entries[key], LastWrite(cache.log, key));
    r := cache.Get(key, start);
    if r.Some? {
      return;
    }
    OtherSearches(cache, others, end);
    var results := if minScore > 0.0 then AtLeast(found, minScore) else found;
    KeptReach(found, minScore);
    var response := Response(results, query);
    var ok := cache.Set(key, response, end, minScore);
    r := if ok then Some(response) else None;
  }

  lemma {:induction false} InOrderEnds(calls: seq<Call>, start: Instant, end: Instant)
    requires InOrder(calls, start, end)
    ensures start <= end
    decreases |calls|
  {
    if calls != [] {
      InOrderEnds(calls[1..], calls[0].at, end);
    }
  }

  lemma KeptReach(results: seq<Item>, minScore: real)
    ensures AllReach(AtLeast(results, minScore), minScore)
  {
    var positions := AtLeastKeepsExactly(results, minScore);
    forall i | 0 <= i < |positions| ensures AtLeast(results, minScore)[i].score >= minScore {
      assert positions[i] in positions;
    }
  }

  /** A stored answer that was asked for with a threshold at least as high reaches this
      one. */
  lemma StoredAnswerReaches(log: seq<Write>, key: string, minScore: real)
    requires Filtered(log)
    ensures minScore > 0.0 && (forall w | w in log && w.key == key :: w.minScore >= minScore) ==>
      LastWrite(log, key).Some? ==> AllReach(LastWrite(log, key).value.response.results, minScore)
  {
    LastWriteLogged(log, key);
  }

  /** The key has no room for min_score: a repeated query with a threshold gets the
      answer that was stored without one, with items below the threshold. */
  method ThresholdIgnoredOnHit(query: string, tenant: string, mode: string, topK: nat, item: Item, minScore: real)
    returns (second: Option<Response>)
    requires 0.0 <= item.score < minScore
    ensures second.Some? && item in second.value.results && item.score < minScore
  {
    var cache := new Cache(300.0, 1000);
    var first := Search(cache, query, tenant, mode, topK, 0.0, None, [item], [], 0.0, 0.0);
    second := Search(cache, query, tenant, mode, topK, minScore, None, [item], [], 1.0, 1.0);
  }
}
