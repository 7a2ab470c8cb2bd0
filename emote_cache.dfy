/** The emote cache of `src/emotes/cache.rs`: emotes keyed by id, each stamped
    with its creation time, last access time and access count; entries older
    than the TTL are dropped on access or by `cleanup`, and the least recently
    used entry is evicted when the cache is full. Time is an explicit clock
    reading `now` in seconds. */
module EmoteCache {
  import opened Wrappers
  import opened Text
  import opened Connection

  const U64_MAX: nat := 0xFFFF_FFFF_FFFF_FFFF
  const CLEANUP_INTERVAL: nat := 300
  const DEFAULT_MAX_SIZE: nat := 10000

  datatype CachedEmote = CachedEmote(emote: Emote, createdAt: nat, lastAccessed: nat, accessCount: nat)

  /** `Instant::duration_since`, which saturates at zero for an earlier reading. */
  function Elapsed(now: nat, since: nat): nat { if now >= since then now - since else 0 }

  /** An entry is expired once its age STRICTLY exceeds the TTL. */
  predicate Expired(c: CachedEmote, ttl: nat, now: nat) { Elapsed(now, c.createdAt) > ttl }

  /** A freshly stored entry: both timestamps `now`, never accessed. */
  function Fresh(e: Emote, now: nat): CachedEmote { CachedEmote(e, now, now, 0) }

  /** `k` is an entry whose `last_accessed` is minimal. */
  predicate IsLeastRecent(m: map<string, CachedEmote>, k: string) {
    k in m && forall j :: j in m ==> m[k].lastAccessed <= m[j].lastAccessed
  }

  /** Among the entries under `keys`, one minimises `f`. */
  lemma {:induction false} MinimumExists(m: map<string, CachedEmote>, keys: set<string>, f: CachedEmote -> int)
    requires keys != {} && keys <= m.Keys
    ensures exists k :: k in keys && forall j :: j in keys ==> f(m[k]) <= f(m[j])
    decreases keys
  {
    var k0 :| k0 in keys;
    if keys != {k0} {
      var rest := keys - {k0};
      MinimumExists(m, rest, f);
      var k1 :| k1 in rest && forall j :: j in rest ==> f(m[k1]) <= f(m[j]);
      if f(m[k0]) <= f(m[k1]) {
        assert forall j :: j in keys ==> f(m[k0]) <= f(m[j]);
      } else {
        assert forall j :: j in keys ==> f(m[k1]) <= f(m[j]);
      }
    }
  }

  lemma LeastRecentExists(m: map<string, CachedEmote>)
    requires |m| > 0
    ensures exists k :: IsLeastRecent(m, k)
  {
    var f := (c: CachedEmote) => c.lastAccessed;
    MinimumExists(m, m.Keys, f);
    var k :| k in m && forall j :: j in m.Keys ==> f(m[k]) <= f(m[j]);
    assert IsLeastRecent(m, k);
  }

  /** The key/emote view of the entries, as `export` serialises it. */
  function Exported(m: map<string, CachedEmote>): (r: map<string, Emote>)
    ensures r.Keys == m.Keys
    ensures forall k :: k in r ==> r[k] == m[k].emote
  {
    map k | k in m :: m[k].emote
  }

  /** The entries after `import`: every imported key stored fresh, overwriting. */
  function Imported(m: map<string, CachedEmote>, data: map<string, Emote>, now: nat): map<string, CachedEmote>
  {
    m + map k | k in data :: Fresh(data[k], now)
  }

  lemma ImportedPointwise(m: map<string, CachedEmote>, data: map<string, Emote>, now: nat, r: map<string, CachedEmote>)
    requires forall k :: k in r <==> k in m || k in data
    requires forall k :: k in data ==> r[k] == Fresh(data[k], now)
    requires forall k :: k in m && k !in data ==> r[k] == m[k]
    ensures r == Imported(m, data, now)
  {
  }

  /** Importing an export into an empty cache and exporting again gives the same
      key/emote map back. */
  lemma ExportImportRoundTrip(data: map<string, Emote>, now: nat)
    ensures Exported(Imported(map[], data, now)) == data
  {
  }

  /** Import into a non-empty cache keeps the old keys and adds the imported ones,
      with no capacity check. */
  lemma ImportKeys(m: map<string, CachedEmote>, data: map<string, Emote>, now: nat)
    ensures Imported(m, data, now).Keys == m.Keys + data.Keys
    ensures forall k :: k in data ==> Imported(m, data, now)[k] == Fresh(data[k], now)
    ensures forall k :: k in m && k !in data ==> Imported(m, data, now)[k] == m[k]
  {
  }

  /** The entries after `preload_popular`: each emote, in order, stored under its
      id only while the cache holds fewer than `maxSize` entries. */
  function Preloaded(m: map<string, CachedEmote>, es: seq<Emote>, maxSize: nat, now: nat): map<string, CachedEmote>
    decreases |es|
  {
    if es == [] then m
    else
      var m' := if |m| < maxSize then m[es[0].id := Fresh(es[0], now)] else m;
      Preloaded(m', es[1..], maxSize, now)
  }

  /** Preloading never pushes the cache past its bound, and never drops an entry. */
  lemma {:induction false} PreloadedBounded(m: map<string, CachedEmote>, es: seq<Emote>, maxSize: nat, now: nat)
    requires |m| <= maxSize
    ensures |Preloaded(m, es, maxSize, now)| <= maxSize
    ensures m.Keys <= Preloaded(m, es, maxSize, now).Keys
    decreases |es|
  {
    if es != [] {
      var m' := if |m| < maxSize then m[es[0].id := Fresh(es[0], now)] else m;
      PreloadedBounded(m', es[1..], maxSize, now);
    }
  }

  datatype CacheStats = CacheStats(size: nat, maxSize: nat, hitCount: nat, missCount: nat, ttlSeconds: nat, lastCleanup: nat)

  /** One entry of `get_most_accessed`. */
  datatype Ranked = Ranked(key: string, emote: Emote, accessCount: nat)

  class EmoteCache {
    var entries: map<string, CachedEmote>
    var ttl: nat
    var lastCleanup: nat
    var cleanupInterval: nat
    var maxSize: nat
    var hitCount: nat
    var missCount: nat

    /** `EmoteCache::new(ttl_hours)`: the TTL is `ttl_hours * 3600` seconds,
        saturating at the largest u64. */
    constructor (ttlHours: nat, now: nat)
      ensures entries == map[] && hitCount == 0 && missCount == 0
      ensures ttl == if ttlHours * 3600 <= U64_MAX then ttlHours * 3600 else U64_MAX
      ensures lastCleanup == now && cleanupInterval == CLEANUP_INTERVAL && maxSize == DEFAULT_MAX_SIZE
    {
      entries := map[];
      ttl := if ttlHours * 3600 <= U64_MAX then ttlHours * 3600 else U64_MAX;
      lastCleanup := now;
      cleanupInterval := CLEANUP_INTERVAL;
      maxSize := DEFAULT_MAX_SIZE;
      hitCount := 0;
      missCount := 0;
    }

    /** `get`: a miss for an absent or expired key (the expired entry is
        removed); a hit refreshes the entry's access time and count. */
    method Get(key: string, now: nat) returns (r: Option<Emote>)
      modifies this
      ensures ttl == old(ttl) && maxSize == old(maxSize) && lastCleanup == old(lastCleanup)
      ensures cleanupInterval == old(cleanupInterval)
      ensures key !in old(entries) ==>
        r == None && entries == old(entries) && missCount == old(missCount) + 1 && hitCount == old(hitCount)
      ensures key in old(entries) && Expired(old(entries)[key], ttl, now) ==>
        r == None && entries == old(entries) - {key} && missCount == old(missCount) + 1 && hitCount == old(hitCount)
      ensures key in old(entries) && !Expired(old(entries)[key], ttl, now) ==>
        var c := old(entries)[key];
        r == Some(c.emote) && hitCount == old(hitCount) + 1 && missCount == old(missCount)
        && entries == old(entries)[key := c.(lastAccessed := now, accessCount := c.accessCount + 1)]
    {
      if key !in entries {
        missCount := missCount + 1;
        return None;
      }
      if Expired(entries[key], ttl, now) {
        entries := entries - {key};
        missCount := missCount + 1;
        return None;
      }
      var c := entries[key];
      entries := entries[key := c.(lastAccessed := now, accessCount := c.accessCount + 1)];
      hitCount := hitCount + 1;
      r := Some(c.emote);
    }

    /** `evict_lru`: removes one entry of minimal `last_accessed`, if any. */
    method EvictLru()
      modifies this`entries
      ensures old(entries) == map[] ==> entries == map[]
      ensures old(entries) != map[] ==>
        exists k :: IsLeastRecent(old(entries), k) && entries == old(entries) - {k}
      ensures |entries| == if |old(entries)| > 0 then |old(entries)| - 1 else 0
    {
      if |entries| > 0 {
        LeastRecentExists(entries);
        var k :| IsLeastRecent(entries, k);
        entries := entries - {k};
      } else {
        assert entries == map[];
      }
    }

    /** `insert`: evicts one least recently used entry when the cache is full
        (even when `key` is already stored), then stores `key` fresh. */
    method Insert(key: string, emote: Emote, now: nat)
      modifies this`entries
      ensures key in entries && entries[key] == Fresh(emote, now)
      ensures |old(entries)| < maxSize ==> entries == old(entries)[key := Fresh(emote, now)]
      ensures |old(entries)| >= maxSize && old(entries) != map[] ==>
        exists k :: IsLeastRecent(old(entries), k) && entries == (old(entries) - {k})[key := Fresh(emote, now)]
      ensures 1 <= maxSize && |old(entries)| <= maxSize ==> |entries| <= maxSize
      ensures forall k :: k in entries && k != key ==> k in old(entries) && entries[k] == old(entries)[k]
    {
      if |entries| >= maxSize {
        EvictLru();
      }
      entries := entries[key := Fresh(emote, now)];
    }

    /** `remove`: drops the key and hands back its emote. */
    method Remove(key: string) returns (r: Option<Emote>)
      modifies this`entries
      ensures entries == old(entries) - {key}
      ensures r == if key in old(entries) then Some(old(entries)[key].emote) else None
    {
      r := if key in entries then Some(entries[key].emote) else None;
      entries := entries - {key};
    }

    function Len(): nat reads this { |entries| }

    function IsEmpty(): (b: bool)
      reads this
      ensures b <==> Len() == 0
    {
      entries == map[]
    }

    /** `needs_cleanup`: more than the cleanup interval since the last cleanup. */
    function NeedsCleanup(now: nat): bool reads this {
      Elapsed(now, lastCleanup) > cleanupInterval
    }

    /** `is_expired`: more than the TTL since the last cleanup. */
    function IsExpired(now: nat): bool reads this {
      Elapsed(now, lastCleanup) > ttl
    }

    /** `cleanup`: collects the expired keys, removes them, and records `now`. */
    method Cleanup(now: nat)
      modifies this`entries, this`lastCleanup
      ensures lastCleanup == now
      ensures forall k :: k in entries <==> k in old(entries) && !Expired(old(entries)[k], ttl, now)
      ensures forall k :: k in entries ==> entries[k] == old(entries)[k]
    {
      var toRemove := ExpiredKeys(now);
      RemoveKeys(toRemove);
      lastCleanup := now;
    }

    /** The first loop of `cleanup`: the keys whose entries have expired. */
    method ExpiredKeys(now: nat) returns (toRemove: set<string>)
      ensures forall k :: k in toRemove <==> k in entries && Expired(entries[k], ttl, now)
    {
      toRemove := {};
      var pending := entries.Keys;
      while pending != {}
        invariant pending <= entries.Keys
        invariant forall k :: k in toRemove <==> k in entries && k !in pending && Expired(entries[k], ttl, now)
        decreases |pending|
      {
        var k :| k in pending;
        if Expired(entries[k], ttl, now) {
          toRemove := toRemove + {k};
        }
        pending := pending - {k};
      }
    }

    /** The second loop of `cleanup`: each key removed in turn. */
    method RemoveKeys(keys: set<string>)
      modifies this`entries
      ensures forall k :: k in entries <==> k in old(entries) && k !in keys
      ensures forall k :: k in entries ==> entries[k] == old(entries)[k]
    {
      var removing := keys;
      while removing != {}
        invariant removing <= keys
        invariant forall k :: k in entries <==> k in old(entries) && (k !in keys || k in removing)
        invariant forall k :: k in entries ==> entries[k] == old(entries)[k]
        decreases |removing|
      {
        var k :| k in removing;
        entries := entries - {k};
        removing := removing - {k};
      }
    }

    /** `clear`: no entries, zeroed counters, cleanup time `now`. */
    method Clear(now: nat)
      modifies this`entries, this`hitCount, this`missCount, this`lastCleanup
      ensures entries == map[] && hitCount == 0 && missCount == 0 && lastCleanup == now
    {
      entries := map[];
      hitCount := 0;
      missCount := 0;
      lastCleanup := now;
    }

    function Stats(): CacheStats reads this {
      CacheStats(|entries|, maxSize, hitCount, missCount, ttl, lastCleanup)
    }

    /** `reset_stats`: zeroes the counters, entries untouched. */
    method ResetStats()
      modifies this`hitCount, this`missCount
      ensures hitCount == 0 && missCount == 0
    {
      hitCount := 0;
      missCount := 0;
    }

    /** The cached emotes satisfying `p`, one per entry, in iteration order. */
    method Select(p: Emote -> bool) returns (r: seq<Emote>)
      ensures |r| == |set k | k in entries && p(entries[k].emote)|
      ensures forall i :: 0 <= i < |r| ==> p(r[i]) && exists k :: k in entries && entries[k].emote == r[i]
      ensures forall k :: k in entries && p(entries[k].emote) ==> entries[k].emote in r
      ensures exists keys :: ListsMatching(entries, p, keys, r)
    {
      var es := entries;
      r := [];
      var pending := es.Keys;
      ghost var matched: set<string> := {};
      ghost var keys: seq<string> := [];
      while pending != {}
        invariant SelectedSoFar(es, p, pending, matched, keys, r)
        decreases |pending|
      {
        var k :| k in pending;
        var r' := if p(es[k].emote) then r + [es[k].emote] else r;
        ghost var matched' := if p(es[k].emote) then matched + {k} else matched;
        ghost var keys' := if p(es[k].emote) then keys + [k] else keys;
        SelectStep(es, p, pending, matched, keys, r, k, matched', keys', r');
        r, matched, keys, pending := r', matched', keys', pending - {k};
      }
      SelectDone(es, p, matched, keys, r);
    }

    /** `get_by_source`: every cached emote of the given source. */
    method GetBySource(source: EmoteSource) returns (r: seq<Emote>)
      ensures forall i :: 0 <= i < |r| ==> r[i].source == source
      ensures forall k :: k in entries && entries[k].emote.source == source ==> entries[k].emote in r
      ensures |r| == |set k | k in entries && entries[k].emote.source == source|
      ensures exists keys :: ListsMatching(entries, OfSource(source), keys, r)
    {
      r := Select(OfSource(source));
      ghost var keys :| ListsMatching(entries, OfSource(source), keys, r);
      SourceSelection(entries, source, keys, r);
    }

    /** `search_by_name`: every cached emote whose name contains the query,
        ignoring case. */
    method SearchByName(query: string) returns (r: seq<Emote>)
      ensures forall i :: 0 <= i < |r| ==> ContainsIgnoreCase(r[i].name, query)
      ensures forall k :: k in entries && ContainsIgnoreCase(entries[k].emote.name, query) ==> entries[k].emote in r
      ensures |r| == |set k | k in entries && ContainsIgnoreCase(entries[k].emote.name, query)|
      ensures exists keys :: ListsMatching(entries, NameMatches(query), keys, r)
    {
      r := Select(NameMatches(query));
      ghost var keys :| ListsMatching(entries, NameMatches(query), keys, r);
      NameSelection(entries, query, keys, r);
    }

    /** `export`: the key/emote map. */
    function Export(): (r: map<string, Emote>)
      reads this
      ensures r.Keys == entries.Keys
    {
      Exported(entries)
    }

    /** `import` of an already decoded key/emote map: each key stored fresh. */
    method Import(data: map<string, Emote>, now: nat)
      modifies this`entries
      ensures entries == Imported(old(entries), data, now)
    {
      var before := entries;
      var m := entries;
      var pending := data.Keys;
      while pending != {}
        invariant pending <= data.Keys
        invariant forall k :: k in m <==> k in before || (k in data && k !in pending)
        invariant forall k :: k in data && k !in pending ==> m[k] == Fresh(data[k], now)
        invariant forall k :: k in before && (k !in data || k in pending) ==> m[k] == before[k]
        decreases |pending|
      {
        var k :| k in pending;
        m := m[k := Fresh(data[k], now)];
        pending := pending - {k};
      }
      assert pending == {};
      ImportedPointwise(before, data, now, m);
      entries := m;
    }

    /** `set_max_size`: evicts least recently used entries until at most `n`
        remain; every evicted entry was used no later than every kept one. */
    method SetMaxSize(n: nat)
      modifies this`entries, this`maxSize
      ensures maxSize == n
      ensures |entries| == if |old(entries)| > n then n else |old(entries)|
      ensures entries.Keys <= old(entries).Keys
      ensures forall k :: k in entries ==> entries[k] == old(entries)[k]
      ensures forall k, j :: k in old(entries) && k !in entries && j in entries ==>
        old(entries)[k].lastAccessed <= entries[j].lastAccessed
    {
      maxSize := n;
      while |entries| > n
        invariant maxSize == n
        invariant entries.Keys <= old(entries).Keys
        invariant forall k :: k in entries ==> entries[k] == old(entries)[k]
        invariant |entries| >= n || |entries| == |old(entries)|
        invariant |old(entries)| > n ==> |entries| >= n
        invariant forall k, j :: k in old(entries) && k !in entries && j in entries ==>
          old(entries)[k].lastAccessed <= entries[j].lastAccessed
        decreases |entries|
      {
        EvictLru();
      }
    }

    /** `set_ttl`: `ttl_hours * 3600` seconds; the product must fit in a u64. */
    method SetTtl(ttlHours: nat)
      requires ttlHours * 3600 <= U64_MAX
      modifies this`ttl
      ensures ttl == ttlHours * 3600
    {
      ttl := ttlHours * 3600;
    }

    /** `preload_popular`: inserts each emote under its id while there is room. */
    method PreloadPopular(es: seq<Emote>, now: nat)
      modifies this`entries
      ensures entries == Preloaded(old(entries), es, maxSize, now)
    {
      var i := 0;
      while i < |es|
        invariant 0 <= i <= |es|
        invariant Preloaded(old(entries), es, maxSize, now) == Preloaded(entries, es[i..], maxSize, now)
      {
        assert es[i..][1..] == es[i + 1..];
        if |entries| < maxSize {
          Insert(es[i].id, es[i], now);
        }
        i := i + 1;
      }
    }

    /** `get_most_accessed`: up to `limit` entries by descending access count;
        no entry left out was accessed more often than one returned. */
    method GetMostAccessed(limit: nat) returns (r: seq<Ranked>)
      ensures |r| == if limit < |entries| then limit else |entries|
      ensures RankedFrom(entries, r) && Descending(r)
      ensures forall k, i :: k in entries && k !in RankedKeys(r) && 0 <= i < |r| ==>
        entries[k].accessCount <= r[i].accessCount
    {
      r := [];
      var remaining := entries;
      while |r| < limit && remaining != map[]
        invariant |r| <= limit
        invariant RankInv(entries, r, remaining)
        decreases |remaining|
      {
        MostAccessedExists(remaining);
        var k :| IsMostAccessed(remaining, k);
        var next := Ranked(k, remaining[k].emote, remaining[k].accessCount);
        RankStep(entries, r, remaining, k);
        r := r + [next];
        remaining := remaining - {k};
      }
    }
  }

  /** Every ranked item is a distinct cache entry, reported faithfully. */
  predicate RankedFrom(m: map<string, CachedEmote>, r: seq<Ranked>) {
    && (forall i :: 0 <= i < |r| ==>
         r[i].key in m && r[i].emote == m[r[i].key].emote && r[i].accessCount == m[r[i].key].accessCount)
    && (forall i, j :: 0 <= i < j < |r| ==> r[i].key != r[j].key)
  }

  predicate Descending(r: seq<Ranked>) {
    forall i, j :: 0 <= i < j < |r| ==> r[i].accessCount >= r[j].accessCount
  }

  /** Loop invariant of `GetMostAccessed`: `r` ranks the entries taken so far,
      `remaining` holds the others, none more accessed than any ranked one. */
  ghost predicate RankInv(m: map<string, CachedEmote>, r: seq<Ranked>, remaining: map<string, CachedEmote>) {
    && (forall k :: k in remaining <==> k in m && k !in RankedKeys(r))
    && (forall k :: k in remaining ==> remaining[k] == m[k])
    && |r| + |remaining| == |m|
    && RankedFrom(m, r)
    && Descending(r)
    && (forall k, i :: k in remaining && 0 <= i < |r| ==> remaining[k].accessCount <= r[i].accessCount)
  }

  /** `r` lists the emotes of the entries of `es` that satisfy `p`, one per
      such entry: `keys` are their distinct keys, in the order listed. As
      multisets, `r` is exactly the matching entries' emotes. */
  ghost predicate ListsMatching(es: map<string, CachedEmote>, p: Emote -> bool, keys: seq<string>, r: seq<Emote>) {
    && |keys| == |r|
    && (forall i, j :: 0 <= i < j < |keys| ==> keys[i] != keys[j])
    && (forall i :: 0 <= i < |keys| ==> keys[i] in es && p(es[keys[i]].emote) && r[i] == es[keys[i]].emote)
    && (forall k :: k in es && p(es[k].emote) ==> k in keys)
  }

  /** The filter of `get_by_source`. */
  function OfSource(source: EmoteSource): Emote -> bool {
    (e: Emote) => e.source == source
  }

  /** The filter of `search_by_name`. */
  function NameMatches(query: string): Emote -> bool {
    (e: Emote) => ContainsIgnoreCase(e.name, query)
  }

  lemma SourceSelection(es: map<string, CachedEmote>, source: EmoteSource, keys: seq<string>, r: seq<Emote>)
    requires ListsMatching(es, OfSource(source), keys, r)
    ensures forall i :: 0 <= i < |r| ==> r[i].source == source
    ensures forall k :: k in es && es[k].emote.source == source ==> es[k].emote in r
    ensures |r| == |set k | k in es && es[k].emote.source == source|
  {
    ListedCount(es, OfSource(source), keys, r);
    assert (set k | k in es && OfSource(source)(es[k].emote)) == (set k | k in es && es[k].emote.source == source);
  }

  lemma NameSelection(es: map<string, CachedEmote>, query: string, keys: seq<string>, r: seq<Emote>)
    requires ListsMatching(es, NameMatches(query), keys, r)
    ensures forall i :: 0 <= i < |r| ==> ContainsIgnoreCase(r[i].name, query)
    ensures forall k :: k in es && ContainsIgnoreCase(es[k].emote.name, query) ==> es[k].emote in r
    ensures |r| == |set k | k in es && ContainsIgnoreCase(es[k].emote.name, query)|
  {
    ListedCount(es, NameMatches(query), keys, r);
    assert (set k | k in es && NameMatches(query)(es[k].emote)) == (set k | k in es && ContainsIgnoreCase(es[k].emote.name, query));
  }

  /** A listing has one element per matching entry, and holds each one's emote. */
  lemma ListedCount(es: map<string, CachedEmote>, p: Emote -> bool, keys: seq<string>, r: seq<Emote>)
    requires ListsMatching(es, p, keys, r)
    ensures |r| == |set k | k in es && p(es[k].emote)|
    ensures forall k :: k in es && p(es[k].emote) ==> es[k].emote in r
  {
    DistinctCard(keys);
    assert (set k | k in es && p(es[k].emote)) == set i | 0 <= i < |keys| :: keys[i];
    forall k | k in es && p(es[k].emote) ensures es[k].emote in r {
      var i :| 0 <= i < |keys| && keys[i] == k;
      assert r[i] == es[k].emote;
    }
  }

  /** A sequence of distinct keys has as many elements as its set. */
  lemma {:induction false} DistinctCard(keys: seq<string>)
    requires forall i, j :: 0 <= i < j < |keys| ==> keys[i] != keys[j]
    ensures |set i | 0 <= i < |keys| :: keys[i]| == |keys|
  {
    if keys != [] {
      var init := keys[..|keys| - 1];
      DistinctCard(init);
      assert (set i | 0 <= i < |keys| :: keys[i]) == (set i | 0 <= i < |init| :: init[i]) + {keys[|keys| - 1]};
    }
  }

  ghost predicate SelectedSoFar(es: map<string, CachedEmote>, p: Emote -> bool, pending: set<string>,
                                matched: set<string>, keys: seq<string>, r: seq<Emote>) {
    && pending <= es.Keys && matched <= es.Keys - pending
    && (forall k :: k in es && k !in pending ==> (k in matched <==> p(es[k].emote)))
    && |r| == |matched| && |keys| == |r|
    && (forall i :: 0 <= i < |keys| ==> keys[i] in matched && r[i] == es[keys[i]].emote)
    && (forall i, j :: 0 <= i < j < |keys| ==> keys[i] != keys[j])
    && (forall k :: k in matched ==> k in keys)
  }

  lemma SelectStep(es: map<string, CachedEmote>, p: Emote -> bool, pending: set<string>, matched: set<string>,
                   keys: seq<string>, r: seq<Emote>, k: string, matched': set<string>, keys': seq<string>, r': seq<Emote>)
    requires SelectedSoFar(es, p, pending, matched, keys, r) && k in pending
    requires r' == if p(es[k].emote) then r + [es[k].emote] else r
    requires matched' == if p(es[k].emote) then matched + {k} else matched
    requires keys' == if p(es[k].emote) then keys + [k] else keys
    ensures SelectedSoFar(es, p, pending - {k}, matched', keys', r')
  {
    if p(es[k].emote) {
      assert k !in matched;
      assert |matched'| == |matched| + 1;
      assert r'[|r|] == es[k].emote && keys'[|keys|] == k;
    }
  }

  lemma SelectDone(es: map<string, CachedEmote>, p: Emote -> bool, matched: set<string>, keys: seq<string>, r: seq<Emote>)
    requires SelectedSoFar(es, p, {}, matched, keys, r)
    ensures |r| == |set k | k in es && p(es[k].emote)|
    ensures forall i :: 0 <= i < |r| ==> p(r[i]) && exists k :: k in es && es[k].emote == r[i]
    ensures forall k :: k in es && p(es[k].emote) ==> es[k].emote in r
    ensures ListsMatching(es, p, keys, r)
  {
    assert forall k :: k in matched <==> k in es && p(es[k].emote);
    assert matched == set k | k in es && p(es[k].emote);
    forall k | k in es && p(es[k].emote) ensures es[k].emote in r {
      var i :| 0 <= i < |keys| && keys[i] == k;
      assert r[i] == es[k].emote;
    }
    forall i | 0 <= i < |r| ensures p(r[i]) && exists k :: k in es && es[k].emote == r[i] {
      assert keys[i] in matched;
    }
  }

  lemma RankStep(m: map<string, CachedEmote>, r: seq<Ranked>, remaining: map<string, CachedEmote>, k: string)
    requires RankInv(m, r, remaining) && IsMostAccessed(remaining, k)
    ensures RankInv(m, r + [Ranked(k, remaining[k].emote, remaining[k].accessCount)], remaining - {k})
  {
    var next := Ranked(k, remaining[k].emote, remaining[k].accessCount);
    RankedKeysAppend(r, next);
    forall i | 0 <= i < |r| ensures r[i].key != k {
      assert r[i].key in RankedKeys(r);
    }
    RankedFromStep(m, r, next);
    DescendingStep(r, next);
    DominatesStep(r, remaining, k);
  }

  lemma RankedFromStep(m: map<string, CachedEmote>, r: seq<Ranked>, next: Ranked)
    requires RankedFrom(m, r)
    requires next.key in m && next.emote == m[next.key].emote && next.accessCount == m[next.key].accessCount
    requires forall i :: 0 <= i < |r| ==> r[i].key != next.key
    ensures RankedFrom(m, r + [next])
  {
    var r' := r + [next];
    assert forall i :: 0 <= i < |r| ==> r'[i] == r[i];
  }

  lemma DescendingStep(r: seq<Ranked>, next: Ranked)
    requires Descending(r)
    requires forall i :: 0 <= i < |r| ==> next.accessCount <= r[i].accessCount
    ensures Descending(r + [next])
  {
    var r' := r + [next];
    assert forall i :: 0 <= i < |r| ==> r'[i] == r[i];
  }

  lemma DominatesStep(r: seq<Ranked>, remaining: map<string, CachedEmote>, k: string)
    requires IsMostAccessed(remaining, k)
    requires forall k', i :: k' in remaining && 0 <= i < |r| ==> remaining[k'].accessCount <= r[i].accessCount
    ensures forall k', i :: k' in remaining - {k} && 0 <= i < |r| + 1 ==>
      (remaining - {k})[k'].accessCount <= (r + [Ranked(k, remaining[k].emote, remaining[k].accessCount)])[i].accessCount
  {
    var r' := r + [Ranked(k, remaining[k].emote, remaining[k].accessCount)];
    assert forall i :: 0 <= i < |r| ==> r'[i] == r[i];
  }

  /** The keys named in a ranking. */
  function RankedKeys(r: seq<Ranked>): set<string> {
    set i | 0 <= i < |r| :: r[i].key
  }

  lemma RankedKeysAppend(r: seq<Ranked>, x: Ranked)
    ensures RankedKeys(r + [x]) == RankedKeys(r) + {x.key}
  {
    assert forall i :: 0 <= i < |r| ==> (r + [x])[i] == r[i];
    assert (r + [x])[|r|] == x;
  }

  /** `k` is an entry whose access count is maximal. */
  predicate IsMostAccessed(m: map<string, CachedEmote>, k: string) {
    k in m && forall j :: j in m ==> m[j].accessCount <= m[k].accessCount
  }

  lemma MostAccessedExists(m: map<string, CachedEmote>)
    requires |m| > 0
    ensures exists k :: IsMostAccessed(m, k)
  {
    var f: CachedEmote -> int := (c: CachedEmote) => 0 - c.accessCount as int;
    MinimumExists(m, m.Keys, f);
    var k :| k in m && forall j :: j in m.Keys ==> f(m[k]) <= f(m[j]);
    assert IsMostAccessed(m, k);
  }
}
