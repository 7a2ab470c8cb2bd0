/** The unified emote system of `src/emotes/mod.rs`: a registry of named emote
    providers, the emote cache, and the emote configuration. Providers are
    remote services; what each registered provider answers during one call is
    passed in as a `ProviderReply` per provider name. The clock is an explicit
    reading `now` in seconds. */
module EmoteSystem {
  import opened Wrappers
  import opened Connection
  import opened EmoteParser
  import EmoteCache
  import Config

  /** Emote data exchanged between providers and the system. */
  datatype EmoteData = EmoteData(
    id: string,
    name: string,
    url: Option<string>,
    isAnimated: bool,
    width: Option<nat>,
    height: Option<nat>,
    isZeroWidth: bool,
    modifier: bool,
    emoteSetId: Option<string>)

  datatype EmoteError =
    | ParseError(msg: string)
    | NetworkError(msg: string)
    | CacheError(msg: string)
    | ProviderNotFound(msg: string)
    | ApiError(msg: string)
    | ConfigError(msg: string)

  /** What one provider answers in one call of the system: its parse of the
      platform's raw emote data, its channel emotes and its global emotes. */
  datatype ProviderReply = ProviderReply(
    parsed: Result<seq<Emote>, EmoteError>,
    channel: Result<seq<EmoteData>, EmoteError>,
    global: Result<seq<EmoteData>, EmoteError>)

  type Replies = string -> ProviderReply

  /** The providers `EmoteSystem::new` registers. */
  const DEFAULT_PROVIDERS: set<string> := {"twitch", "bttv", "ffz", "7tv"}

  /** The provider names with a dedicated emote source. */
  const NAMED_PROVIDERS: set<string> := {"twitch", "bttv", "ffz", "7tv", "youtube"}

  /** `map_provider_to_source`: the five named providers have their own source,
      every other name is a local emote. */
  function ProviderSource(provider: string): (s: EmoteSource)
    ensures s == Local <==> provider !in NAMED_PROVIDERS
  {
    if provider == "twitch" then Twitch
    else if provider == "bttv" then BTTV
    else if provider == "ffz" then FFZ
    else if provider == "7tv" then SevenTV
    else if provider == "youtube" then YouTube
    else Local
  }

  /** No two named providers share a source. */
  lemma ProviderSourceInjective(a: string, b: string)
    requires a in NAMED_PROVIDERS && b in NAMED_PROVIDERS
    ensures ProviderSource(a) == ProviderSource(b) ==> a == b
  {
  }

  /** The emote built from provider data: the data's fields, the provider's
      source, the given positions and no tier. */
  function ToEmote(d: EmoteData, provider: string, positions: seq<TextPosition>): Emote {
    Emote(d.id, d.name, ProviderSource(provider), positions, d.url, d.isAnimated, d.width, d.height,
      EmoteMetadata(d.isZeroWidth, d.modifier, d.emoteSetId, None))
  }

  // ---------------------------------------------------------------------------
  // Third-party emotes of a channel
  // ---------------------------------------------------------------------------

  /** Whether the configuration enables the third-party provider `name`. */
  predicate EnabledFor(config: Config.EmoteConfig, name: string) {
    || (name == "bttv" && config.enableBttv)
    || (name == "ffz" && config.enableFfz)
    || (name == "7tv" && config.enable7tv)
  }

  predicate ThirdPartyEnabled(config: Config.EmoteConfig) {
    config.enableBttv || config.enableFfz || config.enable7tv
  }

  /** The third-party providers asked for channel emotes: enabled and registered. */
  function Consulted(config: Config.EmoteConfig, providers: set<string>): set<string> {
    set p | p in {"bttv", "ffz", "7tv"} && EnabledFor(config, p) && p in providers
  }

  /** The consulted providers, name by name. */
  lemma ConsultedMembers(config: Config.EmoteConfig, providers: set<string>)
    ensures "bttv" in Consulted(config, providers) <==> config.enableBttv && "bttv" in providers
    ensures "ffz" in Consulted(config, providers) <==> config.enableFfz && "ffz" in providers
    ensures "7tv" in Consulted(config, providers) <==> config.enable7tv && "7tv" in providers
    ensures forall p :: p in Consulted(config, providers) ==> p == "bttv" || p == "ffz" || p == "7tv"
  {
  }

  /** The three cases of `KnownThirdParty`, in the order of the source. */
  lemma KnownThirdPartyCases(config: Config.EmoteConfig, providers: set<string>, replies: Replies)
    ensures var bttv, ffz, stv := config.enableBttv && "bttv" in providers && replies("bttv").channel.Err?,
                                  config.enableFfz && "ffz" in providers && replies("ffz").channel.Err?,
                                  config.enable7tv && "7tv" in providers && replies("7tv").channel.Err?;
      && (bttv ==> KnownThirdParty(config, providers, replies) == Err(replies("bttv").channel.error))
      && (!bttv && ffz ==> KnownThirdParty(config, providers, replies) == Err(replies("ffz").channel.error))
      && (!bttv && !ffz && stv ==> KnownThirdParty(config, providers, replies) == Err(replies("7tv").channel.error))
      && (!bttv && !ffz && !stv ==> KnownThirdParty(config, providers, replies).Ok?)
    ensures KnownThirdParty(config, providers, replies).Ok? ==>
      var m := KnownThirdParty(config, providers, replies).value;
      && ("bttv" in m <==> config.enableBttv && "bttv" in providers)
      && ("ffz" in m <==> config.enableFfz && "ffz" in providers)
      && ("7tv" in m <==> config.enable7tv && "7tv" in providers)
      && (forall p :: p in m ==> (p == "bttv" || p == "ffz" || p == "7tv") && m[p] == replies(p).channel.value)
  {
    ConsultedMembers(config, providers);
  }

  /** `get_known_third_party_emotes`: bttv, then ffz, then 7tv are asked in turn;
      the first error aborts, otherwise every consulted provider's list is kept
      under its name. */
  function KnownThirdParty(config: Config.EmoteConfig, providers: set<string>, replies: Replies)
    : Result<map<string, seq<EmoteData>>, EmoteError>
  {
    if "bttv" in Consulted(config, providers) && replies("bttv").channel.Err? then Err(replies("bttv").channel.error)
    else if "ffz" in Consulted(config, providers) && replies("ffz").channel.Err? then Err(replies("ffz").channel.error)
    else if "7tv" in Consulted(config, providers) && replies("7tv").channel.Err? then Err(replies("7tv").channel.error)
    else Ok(map p | p in Consulted(config, providers) :: replies(p).channel.value)
  }

  /** The lookup succeeds exactly when no consulted provider fails, and then it
      holds exactly the consulted providers' lists. */
  lemma KnownThirdPartyOk(config: Config.EmoteConfig, providers: set<string>, replies: Replies)
    ensures KnownThirdParty(config, providers, replies).Ok? <==>
      forall p :: p in Consulted(config, providers) ==> replies(p).channel.Ok?
    ensures KnownThirdParty(config, providers, replies).Ok? ==>
      && KnownThirdParty(config, providers, replies).value.Keys == Consulted(config, providers)
      && forall p :: p in Consulted(config, providers) ==>
           KnownThirdParty(config, providers, replies).value[p] == replies(p).channel.value
  {
  }

  /** A failure reports the error of the first failing provider in the order
      bttv, ffz, 7tv. */
  lemma KnownThirdPartyFirstError(config: Config.EmoteConfig, providers: set<string>, replies: Replies, p: string)
    requires p in Consulted(config, providers) && replies(p).channel.Err?
    requires p == "ffz" ==> !("bttv" in Consulted(config, providers) && replies("bttv").channel.Err?)
    requires p == "7tv" ==> !(("bttv" in Consulted(config, providers) && replies("bttv").channel.Err?)
                             || ("ffz" in Consulted(config, providers) && replies("ffz").channel.Err?))
    ensures KnownThirdParty(config, providers, replies) == Err(replies(p).channel.error)
  {
  }

  /** Every emote name is non-empty: the source's position search underflows on
      an empty name. */
  predicate NamedData(ds: seq<EmoteData>) {
    forall i :: 0 <= i < |ds| ==> |ds[i].name| > 0
  }

  predicate NamedChannel(reply: ProviderReply) {
    reply.channel.Ok? ==> NamedData(reply.channel.value)
  }

  predicate NamedChannels(replies: Replies) {
    NamedChannel(replies("bttv")) && NamedChannel(replies("ffz")) && NamedChannel(replies("7tv"))
  }

  predicate NamedKnown(known: map<string, seq<EmoteData>>) {
    forall p :: p in known ==> NamedData(known[p])
  }

  lemma KnownThirdPartyNamed(config: Config.EmoteConfig, providers: set<string>, replies: Replies)
    requires NamedChannels(replies)
    ensures KnownThirdParty(config, providers, replies).Ok? ==>
      && NamedKnown(KnownThirdParty(config, providers, replies).value)
      && KnownThirdParty(config, providers, replies).value.Keys <= {"bttv", "ffz", "7tv"}
  {
    KnownThirdPartyOk(config, providers, replies);
  }

  /** The emote for one provider datum when its name occurs as a whole word in
      the message, with all its positions. */
  function Spotted(message: string, provider: string, d: EmoteData): seq<Emote>
    requires |d.name| > 0
  {
    var positions := PositionsFrom(message, d.name, 0);
    if positions == [] then [] else [ToEmote(d, provider, positions)]
  }

  /** The emotes of one provider's list that occur in the message, in list order. */
  function ProviderEmotes(message: string, provider: string, ds: seq<EmoteData>): seq<Emote>
    requires NamedData(ds)
    decreases |ds|
  {
    if ds == [] then []
    else ProviderEmotes(message, provider, ds[..|ds| - 1]) + Spotted(message, provider, ds[|ds| - 1])
  }

  /** Every reported emote comes from the list with the provider's source, and
      its positions are all whole-word occurrences of its name, at least one. */
  lemma {:induction false} ProviderEmotesSound(message: string, provider: string, ds: seq<EmoteData>, e: Emote)
    requires NamedData(ds)
    requires e in ProviderEmotes(message, provider, ds)
    ensures e.source == ProviderSource(provider) && e.metadata.tier == None
    ensures exists i :: 0 <= i < |ds| && e == ToEmote(ds[i], provider, e.positions)
    ensures |e.name| > 0 && e.positions != [] && e.positions == PositionsFrom(message, e.name, 0)
    ensures SoundPositions(message, e.name, 0, e.positions)
    decreases |ds|
  {
    var last := ds[|ds| - 1];
    if e in ProviderEmotes(message, provider, ds[..|ds| - 1]) {
      ProviderEmotesSound(message, provider, ds[..|ds| - 1], e);
      var i :| 0 <= i < |ds| - 1 && e == ToEmote(ds[..|ds| - 1][i], provider, e.positions);
      assert ds[..|ds| - 1][i] == ds[i];
    } else {
      assert e == ToEmote(last, provider, PositionsFrom(message, last.name, 0));
      PositionsSound(message, e.name, 0);
    }
  }

  /** Conversely, every datum whose name occurs in the message is reported. */
  lemma {:induction false} ProviderEmotesComplete(message: string, provider: string, ds: seq<EmoteData>, i: nat)
    requires NamedData(ds) && i < |ds|
    requires PositionsFrom(message, ds[i].name, 0) != []
    ensures ToEmote(ds[i], provider, PositionsFrom(message, ds[i].name, 0)) in ProviderEmotes(message, provider, ds)
    decreases |ds|
  {
    if i < |ds| - 1 {
      ProviderEmotesComplete(message, provider, ds[..|ds| - 1], i);
    }
  }

  /** One provider's share of the third-party emotes. */
  function Contribution(message: string, known: map<string, seq<EmoteData>>, p: string): multiset<Emote>
    requires NamedKnown(known)
  {
    if p in known then multiset(ProviderEmotes(message, p, known[p])) else multiset{}
  }

  /** The third-party emotes contributed by the providers in `done`. */
  ghost function CollectedFrom(message: string, known: map<string, seq<EmoteData>>, done: set<string>): multiset<Emote>
    requires NamedKnown(known)
    decreases done
  {
    if done == {} then multiset{}
    else
      var p :| p in done;
      Contribution(message, known, p) + CollectedFrom(message, known, done - {p})
  }

  /** The collected emotes do not depend on the order the providers are visited in. */
  lemma {:induction false} CollectedRemove(message: string, known: map<string, seq<EmoteData>>, done: set<string>, q: string)
    requires NamedKnown(known) && q in done
    ensures CollectedFrom(message, known, done) ==
      Contribution(message, known, q) + CollectedFrom(message, known, done - {q})
    decreases done
  {
    var p :| p in done && CollectedFrom(message, known, done) ==
      Contribution(message, known, p) + CollectedFrom(message, known, done - {p});
    if p != q {
      CollectedRemove(message, known, done - {p}, q);
      CollectedRemove(message, known, done - {q}, p);
      assert done - {p} - {q} == done - {q} - {p};
    }
  }

  /** All third-party emotes found in the message, independent of the order in
      which the providers are visited. */
  ghost function ThirdPartyEmotes(message: string, known: map<string, seq<EmoteData>>): multiset<Emote>
    requires NamedKnown(known)
  {
    CollectedFrom(message, known, known.Keys)
  }

  /** An emote is collected from `done` exactly when some provider in `done`
      reports it. */
  lemma {:induction false} CollectedMembers(message: string, known: map<string, seq<EmoteData>>, done: set<string>, e: Emote)
    requires NamedKnown(known) && done <= known.Keys
    ensures e in CollectedFrom(message, known, done) <==>
      exists p :: p in done && e in ProviderEmotes(message, p, known[p])
    decreases done
  {
    if done != {} {
      var q :| q in done;
      CollectedRemove(message, known, done, q);
      CollectedMembers(message, known, done - {q}, e);
      if e in ProviderEmotes(message, q, known[q]) {
        assert e in Contribution(message, known, q);
      }
    }
  }

  /** An emote is among the third-party emotes exactly when some known provider
      reports it. */
  lemma ThirdPartyEmotesMembers(message: string, known: map<string, seq<EmoteData>>, e: Emote)
    requires NamedKnown(known)
    ensures e in ThirdPartyEmotes(message, known) <==>
      exists p :: p in known && e in ProviderEmotes(message, p, known[p])
  {
    CollectedMembers(message, known, known.Keys, e);
  }

  // ---------------------------------------------------------------------------
  // Platform emotes and the cache
  // ---------------------------------------------------------------------------

  /** The platform provider's emotes: none when no provider is registered under
      the platform's name or when its parse fails. */
  function PlatformEmotes(providers: set<string>, replies: Replies, platform: string): seq<Emote> {
    if platform in providers && replies(platform).parsed.Ok? then replies(platform).parsed.value else []
  }

  /** Whether a lookup of `id` is a hit: present and not expired. */
  predicate CacheHit(entries: map<string, EmoteCache.CachedEmote>, ttl: nat, now: nat, id: string) {
    id in entries && !EmoteCache.Expired(entries[id], ttl, now)
  }

  /** A platform emote after enrichment: on a hit its url, animation flag and
      size come from the cached emote, everything else is kept. */
  function Enriched(e: Emote, entries: map<string, EmoteCache.CachedEmote>, ttl: nat, now: nat): (f: Emote)
    ensures f.id == e.id && f.name == e.name && f.source == e.source
    ensures f.positions == e.positions && f.metadata == e.metadata
    ensures !CacheHit(entries, ttl, now, e.id) ==> f == e
    ensures CacheHit(entries, ttl, now, e.id) ==>
      var c := entries[e.id].emote;
      f.url == c.url && f.isAnimated == c.isAnimated && f.width == c.width && f.height == c.height
  {
    if CacheHit(entries, ttl, now, e.id) then
      var c := entries[e.id].emote;
      e.(url := c.url, isAnimated := c.isAnimated, width := c.width, height := c.height)
    else e
  }

  /** The first `n` emotes, as `Vec::truncate` leaves them. */
  function Truncated(es: seq<Emote>, n: nat): (r: seq<Emote>)
    ensures |r| == if |es| <= n then |es| else n
    ensures r <= es
  {
    if |es| > n then es[..n] else es
  }

  /** The summed list lengths of the providers in `names` whose global emotes
      loaded. */
  ghost function GlobalTotal(names: set<string>, replies: Replies): nat
    decreases names
  {
    if names == {} then 0
    else
      var p :| p in names;
      (if replies(p).global.Ok? then |replies(p).global.value| else 0) + GlobalTotal(names - {p}, replies)
  }

  /** The total does not depend on the order the providers are visited in. */
  lemma {:induction false} GlobalTotalRemove(names: set<string>, replies: Replies, q: string)
    requires q in names
    ensures GlobalTotal(names, replies) ==
      (if replies(q).global.Ok? then |replies(q).global.value| else 0) + GlobalTotal(names - {q}, replies)
    decreases names
  {
    var p :| p in names && GlobalTotal(names, replies) ==
      (if replies(p).global.Ok? then |replies(p).global.value| else 0) + GlobalTotal(names - {p}, replies);
    if p != q {
      GlobalTotalRemove(names - {p}, replies, q);
      GlobalTotalRemove(names - {q}, replies, p);
      assert names - {p} - {q} == names - {q} - {p};
    }
  }

  /** With every provider failing, nothing is counted. */
  lemma {:induction false} GlobalTotalAllFailed(names: set<string>, replies: Replies)
    requires forall p :: p in names ==> replies(p).global.Err?
    ensures GlobalTotal(names, replies) == 0
    decreases names
  {
    if names != {} {
      var p :| p in names;
      GlobalTotalRemove(names, replies, p);
      GlobalTotalAllFailed(names - {p}, replies);
    }
  }

  /** The TTL a cache built for `ttlHours` gets. */
  function TtlSeconds(ttlHours: nat): nat {
    if ttlHours * 3600 <= EmoteCache.U64_MAX then ttlHours * 3600 else EmoteCache.U64_MAX
  }

  class System {
    var cache: EmoteCache.EmoteCache
    var providers: set<string>
    var config: Config.EmoteConfig

    /** `EmoteSystem::new`: the four default providers, an empty cache with the
        configured TTL. */
    constructor (config: Config.EmoteConfig, now: nat)
      ensures this.config == config && providers == DEFAULT_PROVIDERS
      ensures fresh(cache) && cache.entries == map[] && cache.ttl == TtlSeconds(config.cacheTtlHours)
    {
      this.config := config;
      providers := DEFAULT_PROVIDERS;
      cache := new EmoteCache.EmoteCache(config.cacheTtlHours, now);
    }

    /** `register_provider`: a provider of an existing name replaces it. */
    method RegisterProvider(name: string)
      modifies this`providers
      ensures providers == old(providers) + {name}
    {
      providers := providers + {name};
    }

    /** `get_known_third_party_emotes`. */
    method GetKnownThirdPartyEmotes(replies: Replies) returns (r: Result<map<string, seq<EmoteData>>, EmoteError>)
      ensures r == KnownThirdParty(config, providers, replies)
    {
      var cfg, provs := config, providers;
      KnownThirdPartyCases(cfg, provs, replies);
      var result: map<string, seq<EmoteData>> := map[];
      if cfg.enableBttv && "bttv" in provs {
        var fetched := replies("bttv").channel;
        if fetched.Err? {
          return Err(fetched.error);
        }
        result := result["bttv" := fetched.value];
      }
      if cfg.enableFfz && "ffz" in provs {
        var fetched := replies("ffz").channel;
        if fetched.Err? {
          return Err(fetched.error);
        }
        result := result["ffz" := fetched.value];
      }
      if cfg.enable7tv && "7tv" in provs {
        var fetched := replies("7tv").channel;
        if fetched.Err? {
          return Err(fetched.error);
        }
        result := result["7tv" := fetched.value];
      }
      ghost var expected := KnownThirdParty(cfg, provs, replies).value;
      assert forall p :: p in result <==> p in expected;
      assert forall p :: p in result ==> result[p] == expected[p];
      assert result == expected;
      return Ok(result);
    }

    /** `parse_third_party_emotes`: the emotes of every known third-party
        provider whose names occur as whole words in the message, provider by
        provider in the map's iteration order. */
    method ParseThirdPartyEmotes(message: string, replies: Replies) returns (r: Result<seq<Emote>, EmoteError>)
      requires NamedChannels(replies)
      ensures r.Err? <==> KnownThirdParty(config, providers, replies).Err?
      ensures r.Err? ==> r.error == KnownThirdParty(config, providers, replies).error
      ensures r.Ok? ==>
        && NamedKnown(KnownThirdParty(config, providers, replies).value)
        && multiset(r.value) == ThirdPartyEmotes(message, KnownThirdParty(config, providers, replies).value)
    {
      var fetched := GetKnownThirdPartyEmotes(replies);
      if fetched.Err? {
        return Err(fetched.error);
      }
      KnownThirdPartyNamed(config, providers, replies);
      var emotes := CollectThirdParty(message, fetched.value);
      return Ok(emotes);
    }

    /** `parse_message_emotes`: the platform provider's emotes enriched from the
        cache, followed by the third-party emotes when any third-party provider
        is enabled, cut to the configured maximum. A failing platform parse is
        ignored; a failing channel lookup fails the whole call. */
    method ParseMessageEmotes(message: string, platform: string, replies: Replies, now: nat)
      returns (r: Result<seq<Emote>, EmoteError>)
      requires NamedChannels(replies)
      modifies cache
      ensures r.Err? <==> ThirdPartyEnabled(config) && KnownThirdParty(config, providers, replies).Err?
      ensures r.Err? ==> r.error == KnownThirdParty(config, providers, replies).error
      ensures r.Ok? ==> |r.value| <= config.maxEmotesPerMessage
      ensures r.Ok? ==>
        var own := PlatformEmotes(providers, replies, platform);
        && (forall k :: 0 <= k < |r.value| && k < |own| ==>
              r.value[k] == Enriched(own[k], old(cache.entries), old(cache.ttl), now))
        && (|r.value| < config.maxEmotesPerMessage ==> |own| <= |r.value|)
        && (!ThirdPartyEnabled(config) ==> r.value == Truncated(r.value, |own|))
      ensures r.Ok? && ThirdPartyEnabled(config) ==>
        var own := PlatformEmotes(providers, replies, platform);
        && NamedKnown(KnownThirdParty(config, providers, replies).value)
        && var all := ThirdPartyEmotes(message, KnownThirdParty(config, providers, replies).value);
        |own| <= |r.value| ==>
          && multiset(r.value[|own|..]) <= all
          && (|own| + |all| <= config.maxEmotesPerMessage ==> multiset(r.value[|own|..]) == all)
      ensures r.Ok? ==>
        var own := PlatformEmotes(providers, replies, platform);
        var found := if ThirdPartyEnabled(config)
          then |own| + |ThirdPartyEmotes(message, KnownThirdParty(config, providers, replies).value)| else |own|;
        |r.value| == if found < config.maxEmotesPerMessage then found else config.maxEmotesPerMessage
      ensures var own := PlatformEmotes(providers, replies, platform);
        LookupsApplied(cache.entries, old(cache.entries), old(cache.ttl), now, own, |own|)
    {
      var own := PlatformEmotes(providers, replies, platform);
      var emotes := EnrichFromCache(cache, own, now);
      if ThirdPartyEnabled(config) {
        var third := ParseThirdPartyEmotes(message, replies);
        if third.Err? {
          return Err(third.error);
        }
        emotes := emotes + third.value;
        assert emotes[|own|..] == third.value;
        assert |multiset(third.value)| == |third.value|;
      }
      var kept := Truncated(emotes, config.maxEmotesPerMessage);
      if ThirdPartyEnabled(config) && |own| <= |kept| {
        PrefixTail(emotes, |own|, |kept|);
      }
      return Ok(kept);
    }

    /** `preload_global_emotes`: every registered provider's global emotes are
        counted, and cached (positions empty) when caching is enabled; failures
        are collected and reported, never returned. The result is the printed
        summary: the total loaded and the providers that failed. */
    method PreloadGlobalEmotes(replies: Replies, now: nat) returns (total: nat, failed: set<string>)
      modifies cache`entries
      ensures total == GlobalTotal(providers, replies)
      ensures failed == set p | p in providers && replies(p).global.Err?
      ensures !config.cacheEnabled ==> cache.entries == old(cache.entries)
      ensures 1 <= cache.maxSize && |old(cache.entries)| <= cache.maxSize ==> |cache.entries| <= cache.maxSize
      ensures forall k :: k in cache.entries && k !in old(cache.entries) ==> FreshGlobal(cache.entries[k], k, now)
      ensures forall k :: k in cache.entries && !(k in old(cache.entries) && cache.entries[k] == old(cache.entries)[k]) ==>
        LoadedFrom(cache.entries[k], k, providers, replies, now)
      ensures config.cacheEnabled && |old(cache.entries)| + GlobalTotal(providers, replies) <= cache.maxSize ==>
        forall p, j :: p in providers && replies(p).global.Ok? && 0 <= j < |replies(p).global.value| ==>
          replies(p).global.value[j].id in cache.entries
    {
      total := 0;
      failed := {};
      var pending := providers;
      ghost var prior := cache.entries;
      ghost var grand := GlobalTotal(providers, replies);
      ghost var room := config.cacheEnabled && |prior| + grand <= cache.maxSize;
      while pending != {}
        invariant cache.maxSize == old(cache.maxSize)
        invariant PreloadState(cache.entries, prior, cache.maxSize, providers, pending, total, failed, replies, now,
                               config.cacheEnabled, grand, room)
        decreases |pending|
      {
        var name :| name in pending;
        total, failed := PreloadRound(cache, config.cacheEnabled, name, replies, now, prior, providers, pending, total, failed, grand, room);
        pending := pending - {name};
      }
      PreloadDone(cache.entries, prior, cache.maxSize, providers, total, failed, replies, now, config.cacheEnabled, grand, room);
    }

    /** `clear_cache`. */
    method ClearCache(now: nat)
      modifies cache`entries, cache`hitCount, cache`missCount, cache`lastCleanup
      ensures cache.entries == map[] && cache.hitCount == 0 && cache.missCount == 0
    {
      cache.Clear(now);
    }

    /** `is_cache_expired`: more than the TTL since the cache's last cleanup. */
    function IsCacheExpired(now: nat): (b: bool)
      reads this, cache
      ensures b <==> EmoteCache.Elapsed(now, cache.lastCleanup) > cache.ttl
    {
      cache.IsExpired(now)
    }

    /** `update_config`: the new configuration, and a fresh empty cache with its TTL. */
    method UpdateConfig(config: Config.EmoteConfig, now: nat)
      modifies this`config, this`cache
      ensures this.config == config && providers == old(providers)
      ensures fresh(cache) && cache.entries == map[] && cache.ttl == TtlSeconds(config.cacheTtlHours)
      ensures cache.hitCount == 0 && cache.missCount == 0
    {
      this.config := config;
      cache := new EmoteCache.EmoteCache(config.cacheTtlHours, now);
    }
  }

  /** `c` is the fresh entry, at `now`, of an emote with id `k` from the
      global list some provider of `done` loaded. */
  ghost predicate LoadedFrom(c: EmoteCache.CachedEmote, k: string, done: set<string>, replies: Replies, now: nat) {
    exists p, j :: p in done && replies(p).global.Ok? && 0 <= j < |replies(p).global.value|
      && replies(p).global.value[j].id == k && c == EmoteCache.Fresh(ToEmote(replies(p).global.value[j], p, []), now)
  }

  /** What the preload loop keeps once the providers in `done` are visited:
      every entry it wrote is loaded from one of them, and when the cache
      has room for every global emote (`room`) nothing is evicted and each loaded id
      is cached. */
  ghost predicate PreloadedSoFar(entries: map<string, EmoteCache.CachedEmote>, prior: map<string, EmoteCache.CachedEmote>,
                                 maxSize: nat, done: set<string>, total: nat, replies: Replies, now: nat,
                                 enabled: bool, room: bool) {
    && (!enabled ==> entries == prior)
    && (1 <= maxSize && |prior| <= maxSize ==> |entries| <= maxSize)
    && (forall k :: k in entries && !(k in prior && entries[k] == prior[k]) ==> LoadedFrom(entries[k], k, done, replies, now))
    && (room ==>
        && |entries| <= |prior| + total
        && (forall k :: k in prior ==> k in entries)
        && (forall p, j :: p in done && replies(p).global.Ok? && 0 <= j < |replies(p).global.value| ==>
              replies(p).global.value[j].id in entries))
  }

  lemma LoadedFromGrow(c: EmoteCache.CachedEmote, k: string, done: set<string>, more: set<string>, replies: Replies, now: nat)
    requires done <= more && LoadedFrom(c, k, done, replies, now)
    ensures LoadedFrom(c, k, more, replies, now)
  {
    var p, j :| p in done && replies(p).global.Ok? && 0 <= j < |replies(p).global.value|
      && replies(p).global.value[j].id == k && c == EmoteCache.Fresh(ToEmote(replies(p).global.value[j], p, []), now);
    assert p in more;
  }

  /** A provider whose list is not cached leaves the loop's state as it was. */
  lemma PreloadSkipped(entries: map<string, EmoteCache.CachedEmote>, prior: map<string, EmoteCache.CachedEmote>,
                       maxSize: nat, done: set<string>, total: nat, replies: Replies, now: nat,
                       enabled: bool, room: bool, name: string)
    requires PreloadedSoFar(entries, prior, maxSize, done, total, replies, now, enabled, room)
    requires room ==> enabled
    requires enabled ==> replies(name).global.Err?
    ensures PreloadedSoFar(entries, prior, maxSize, done + {name},
      total + (if replies(name).global.Ok? then |replies(name).global.value| else 0), replies, now, enabled, room)
  {
    forall k | k in entries && !(k in prior && entries[k] == prior[k])
      ensures LoadedFrom(entries[k], k, done + {name}, replies, now)
    {
      LoadedFromGrow(entries[k], k, done, done + {name}, replies, now);
    }
  }

  /** A provider whose list `CacheGlobals` stored extends the loop's state. */
  lemma PreloadCached(before: map<string, EmoteCache.CachedEmote>, after: map<string, EmoteCache.CachedEmote>,
                      prior: map<string, EmoteCache.CachedEmote>, maxSize: nat, done: set<string>,
                      total: nat, replies: Replies, now: nat, room: bool, name: string)
    requires PreloadedSoFar(before, prior, maxSize, done, total, replies, now, true, room)
    requires replies(name).global.Ok?
    requires room ==> |prior| + total + |replies(name).global.value| <= maxSize
    requires 1 <= maxSize && |before| <= maxSize ==> |after| <= maxSize
    requires forall k :: k in after ==> LoadedOrKept(after, before, k, name, replies(name).global.value, now)
    requires |before| + |replies(name).global.value| <= maxSize ==>
      && |after| <= |before| + |replies(name).global.value|
      && (forall k :: k in before ==> k in after)
      && (forall j :: 0 <= j < |replies(name).global.value| ==> replies(name).global.value[j].id in after)
    ensures PreloadedSoFar(after, prior, maxSize, done + {name}, total + |replies(name).global.value|, replies, now, true, room)
  {
    var list := replies(name).global.value;
    forall k | k in after && !(k in prior && after[k] == prior[k])
      ensures LoadedFrom(after[k], k, done + {name}, replies, now)
    {
      if k in before && after[k] == before[k] {
        LoadedFromGrow(after[k], k, done, done + {name}, replies, now);
      } else {
        var j :| 0 <= j < |list| && list[j].id == k && after[k] == EmoteCache.Fresh(ToEmote(list[j], name, []), now);
        assert name in done + {name};
      }
    }
  }

  /** One round of the preload loop: the provider's global list is cached
      when caching is on and the list loaded. `grand` is the number of
      global emotes of all providers. */
  method PreloadProvider(cache: EmoteCache.EmoteCache, enabled: bool, name: string, replies: Replies, now: nat,
                         ghost prior: map<string, EmoteCache.CachedEmote>, ghost done: set<string>, total: nat,
                         ghost grand: nat, ghost room: bool) returns (count: nat)
    requires PreloadedSoFar(cache.entries, prior, cache.maxSize, done, total, replies, now, enabled, room)
    requires room ==> enabled && |prior| + grand <= cache.maxSize
    requires total + (if replies(name).global.Ok? then |replies(name).global.value| else 0) <= grand
    modifies cache`entries
    ensures count == if replies(name).global.Ok? then |replies(name).global.value| else 0
    ensures PreloadedSoFar(cache.entries, prior, cache.maxSize, done + {name}, total + count, replies, now, enabled, room)
  {
    var loaded := replies(name).global;
    count := if loaded.Ok? then |loaded.value| else 0;
    ghost var before := cache.entries;
    if loaded.Ok? && enabled {
      CacheGlobals(cache, name, loaded.value, now);
      PreloadCached(before, cache.entries, prior, cache.maxSize, done, total, replies, now, room, name);
    } else {
      PreloadSkipped(before, prior, cache.maxSize, done, total, replies, now, enabled, room, name);
    }
  }

  /** Everything the preload loop keeps, with `pending` the providers not
      yet visited. */
  ghost predicate PreloadState(entries: map<string, EmoteCache.CachedEmote>, prior: map<string, EmoteCache.CachedEmote>,
                               maxSize: nat, providers: set<string>, pending: set<string>, total: nat, failed: set<string>,
                               replies: Replies, now: nat, enabled: bool, grand: nat, room: bool) {
    && pending <= providers
    && total + GlobalTotal(pending, replies) == grand
    && (room ==> enabled && |prior| + grand <= maxSize)
    && (forall p :: p in failed <==> p in providers && p !in pending && replies(p).global.Err?)
    && PreloadedSoFar(entries, prior, maxSize, providers - pending, total, replies, now, enabled, room)
  }

  /** One round of the preload loop: the provider `name` is visited, its
      emotes counted and, when caching is on, cached; a failure is recorded. */
  method PreloadRound(cache: EmoteCache.EmoteCache, enabled: bool, name: string, replies: Replies, now: nat,
                      ghost prior: map<string, EmoteCache.CachedEmote>, ghost providers: set<string>,
                      ghost pending: set<string>, total: nat, failed: set<string>, ghost grand: nat, ghost room: bool)
    returns (total': nat, failed': set<string>)
    requires name in pending
    requires PreloadState(cache.entries, prior, cache.maxSize, providers, pending, total, failed, replies, now, enabled, grand, room)
    modifies cache`entries
    ensures PreloadState(cache.entries, prior, cache.maxSize, providers, pending - {name}, total', failed', replies, now,
                         enabled, grand, room)
  {
    GlobalTotalRemove(pending, replies, name);
    ghost var done := providers - pending;
    var count := PreloadProvider(cache, enabled, name, replies, now, prior, done, total, grand, room);
    total' := total + count;
    failed' := if replies(name).global.Err? then failed + {name} else failed;
    assert providers - (pending - {name}) == done + {name};
  }

  /** The preload loop's state after every provider gives its postcondition. */
  lemma PreloadDone(entries: map<string, EmoteCache.CachedEmote>, prior: map<string, EmoteCache.CachedEmote>,
                    maxSize: nat, providers: set<string>, total: nat, failed: set<string>, replies: Replies, now: nat,
                    enabled: bool, grand: nat, room: bool)
    requires grand == GlobalTotal(providers, replies) && room == (enabled && |prior| + grand <= maxSize)
    requires PreloadState(entries, prior, maxSize, providers, {}, total, failed, replies, now, enabled, grand, room)
    ensures total == GlobalTotal(providers, replies)
    ensures failed == set p | p in providers && replies(p).global.Err?
    ensures !enabled ==> entries == prior
    ensures 1 <= maxSize && |prior| <= maxSize ==> |entries| <= maxSize
    ensures forall k :: k in entries && !(k in prior && entries[k] == prior[k]) ==> LoadedFrom(entries[k], k, providers, replies, now)
    ensures forall k :: k in entries && k !in prior ==> FreshGlobal(entries[k], k, now)
    ensures room ==>
      forall p, j :: p in providers && replies(p).global.Ok? && 0 <= j < |replies(p).global.value| ==>
        replies(p).global.value[j].id in entries
  {
    assert providers - {} == providers;
    forall k | k in entries && k !in prior ensures FreshGlobal(entries[k], k, now) {
      var p, j :| p in providers && replies(p).global.Ok? && 0 <= j < |replies(p).global.value|
        && replies(p).global.value[j].id == k && entries[k] == EmoteCache.Fresh(ToEmote(replies(p).global.value[j], p, []), now);
    }
  }

  /** Stored by the global preload: fresh at `now`, no positions, keyed by id. */
  predicate FreshGlobal(c: EmoteCache.CachedEmote, key: string, now: nat) {
    c.createdAt == now && c.lastAccessed == now && c.accessCount == 0 && c.emote.positions == [] && c.emote.id == key
  }

  /** The emotes of one provider list that occur in the message. */
  method FindProviderEmotes(message: string, provider: string, ds: seq<EmoteData>) returns (found: seq<Emote>)
    requires NamedData(ds)
    ensures found == ProviderEmotes(message, provider, ds)
  {
    found := [];
    for i := 0 to |ds|
      invariant found == ProviderEmotes(message, provider, ds[..i])
    {
      var positions := FindEmotePositions(message, ds[i].name);
      assert ds[..i + 1][..i] == ds[..i];
      if positions != [] {
        found := found + [ToEmote(ds[i], provider, positions)];
      }
    }
    assert ds[..|ds|] == ds;
  }

  /** The emotes contributed by the providers in `order`, visited in that order. */
  ghost function CollectedAlong(message: string, known: map<string, seq<EmoteData>>, order: seq<string>): multiset<Emote>
    requires NamedKnown(known)
    decreases |order|
  {
    if order == [] then multiset{}
    else CollectedAlong(message, known, order[..|order| - 1]) + Contribution(message, known, order[|order| - 1])
  }

  /** Visiting distinct providers in any order collects the same emotes. */
  lemma {:induction false} CollectedAlongAnyOrder(message: string, known: map<string, seq<EmoteData>>,
                                                  order: seq<string>, names: set<string>)
    requires NamedKnown(known)
    requires forall i, j :: 0 <= i < j < |order| ==> order[i] != order[j]
    requires forall x :: x in names <==> x in order
    ensures CollectedAlong(message, known, order) == CollectedFrom(message, known, names)
    decreases |order|
  {
    if order == [] {
      assert names == {};
    } else {
      var last := order[|order| - 1];
      var front := order[..|order| - 1];
      CollectedRemove(message, known, names, last);
      forall x
        ensures x in names - {last} <==> x in front
      {
        if x in front {
          var i :| 0 <= i < |front| && front[i] == x;
          assert order[i] == x;
        }
        if x in names - {last} {
          var i :| 0 <= i < |order| && order[i] == x;
          assert i < |order| - 1;
          assert front[i] == x;
        }
      }
      CollectedAlongAnyOrder(message, known, front, names - {last});
    }
  }

  /** One round of the provider loop: the provider's emotes appended. */
  method AddProviderEmotes(message: string, known: map<string, seq<EmoteData>>, ghost visited: seq<string>,
                           name: string, emotes: seq<Emote>) returns (extended: seq<Emote>)
    requires NamedKnown(known) && name in known
    requires multiset(emotes) == CollectedAlong(message, known, visited)
    ensures multiset(extended) == CollectedAlong(message, known, visited + [name])
  {
    var found := FindProviderEmotes(message, name, known[name]);
    assert (visited + [name])[..|visited|] == visited;
    assert multiset(emotes + found) == multiset(emotes) + multiset(found);
    extended := emotes + found;
  }

  /** The loop over the known providers, in whatever order the map yields them. */
  method CollectThirdParty(message: string, known: map<string, seq<EmoteData>>) returns (emotes: seq<Emote>)
    requires NamedKnown(known)
    ensures multiset(emotes) == ThirdPartyEmotes(message, known)
  {
    emotes := [];
    var pending := known.Keys;
    ghost var visited: seq<string> := [];
    while pending != {}
      invariant pending <= known.Keys
      invariant forall x :: x in visited <==> x in known && x !in pending
      invariant forall i, j :: 0 <= i < j < |visited| ==> visited[i] != visited[j]
      invariant multiset(emotes) == CollectedAlong(message, known, visited)
      decreases |pending|
    {
      var name :| name in pending;
      emotes := AddProviderEmotes(message, known, visited, name, emotes);
      visited := visited + [name];
      pending := pending - {name};
    }
    CollectedAlongAnyOrder(message, known, visited, known.Keys);
  }

  /** An id among the first `n` emotes of `list`. */
  predicate LookedUp(list: seq<Emote>, n: nat, id: string) {
    exists k :: 0 <= k < n && k < |list| && list[k].id == id
  }

  /** The cache after `get` has looked up the ids of the first `n` emotes of
      `list`, starting from `prior`: no entry is added and each keeps its
      emote and creation time; an entry never looked up is untouched; an
      unexpired entry stays; an expired entry that was looked up is removed. */
  ghost predicate LookupsApplied(entries: map<string, EmoteCache.CachedEmote>, prior: map<string, EmoteCache.CachedEmote>,
                                 ttl: nat, now: nat, list: seq<Emote>, n: nat) {
    && (forall id :: id in entries ==>
          id in prior && entries[id].emote == prior[id].emote && entries[id].createdAt == prior[id].createdAt)
    && (forall id :: CacheHit(prior, ttl, now, id) ==> id in entries)
    && (forall id :: id in prior && !LookedUp(list, n, id) ==> id in entries && entries[id] == prior[id])
    && (forall id :: id in prior && LookedUp(list, n, id) && EmoteCache.Expired(prior[id], ttl, now) ==> id !in entries)
  }

  /** One `get` of the enrichment loop keeps `LookupsApplied`. */
  lemma LookupStep(before: map<string, EmoteCache.CachedEmote>, after: map<string, EmoteCache.CachedEmote>,
                   prior: map<string, EmoteCache.CachedEmote>, ttl: nat, now: nat, list: seq<Emote>, i: nat)
    requires i < |list|
    requires LookupsApplied(before, prior, ttl, now, list, i)
    requires list[i].id !in before ==> after == before
    requires list[i].id in before && EmoteCache.Expired(before[list[i].id], ttl, now) ==> after == before - {list[i].id}
    requires list[i].id in before && !EmoteCache.Expired(before[list[i].id], ttl, now) ==>
      var c := before[list[i].id];
      after == before[list[i].id := c.(lastAccessed := now, accessCount := c.accessCount + 1)]
    ensures LookupsApplied(after, prior, ttl, now, list, i + 1)
  {
    var key := list[i].id;
    forall id ensures LookedUp(list, i + 1, id) <==> LookedUp(list, i, id) || id == key {
      if LookedUp(list, i + 1, id) && id != key {
        var k :| 0 <= k < i + 1 && k < |list| && list[k].id == id;
        assert k < i;
      }
    }
  }

  /** The enrichment loop of `parse_message_emotes`: each emote looked up by id,
      in order, and given the cached url, animation flag and size on a hit. */
  method EnrichFromCache(cache: EmoteCache.EmoteCache, list: seq<Emote>, now: nat) returns (emotes: seq<Emote>)
    modifies cache
    ensures |emotes| == |list|
    ensures forall k :: 0 <= k < |list| ==> emotes[k] == Enriched(list[k], old(cache.entries), old(cache.ttl), now)
    ensures cache.ttl == old(cache.ttl) && cache.maxSize == old(cache.maxSize)
    ensures cache.entries.Keys <= old(cache.entries).Keys
    ensures LookupsApplied(cache.entries, old(cache.entries), old(cache.ttl), now, list, |list|)
  {
    emotes := [];
    ghost var prior := cache.entries;
    for i := 0 to |list|
      invariant |emotes| == i
      invariant forall k :: 0 <= k < i ==> emotes[k] == Enriched(list[k], old(cache.entries), old(cache.ttl), now)
      invariant cache.ttl == old(cache.ttl) && cache.maxSize == old(cache.maxSize)
      invariant LookupsApplied(cache.entries, prior, old(cache.ttl), now, list, i)
    {
      var e := list[i];
      ghost var before := cache.entries;
      var cached := cache.Get(e.id, now);
      LookupStep(before, cache.entries, prior, cache.ttl, now, list, i);
      if cached.Some? {
        e := e.(url := cached.value.url, isAnimated := cached.value.isAnimated,
                width := cached.value.width, height := cached.value.height);
      }
      emotes := emotes + [e];
    }
  }

  /** The caching loop of `preload_global_emotes` for one provider's list.
      Every entry the loop writes is a loaded emote, fresh at `now`; when the
      cache has room for the whole list nothing is evicted, so every loaded
      id ends up cached. */
  method CacheGlobals(cache: EmoteCache.EmoteCache, provider: string, list: seq<EmoteData>, now: nat)
    modifies cache`entries
    ensures 1 <= cache.maxSize && |old(cache.entries)| <= cache.maxSize ==> |cache.entries| <= cache.maxSize
    ensures forall k :: k in cache.entries ==> k in old(cache.entries) || FreshGlobal(cache.entries[k], k, now)
    ensures forall k :: k in cache.entries && k in old(cache.entries) && !FreshGlobal(cache.entries[k], k, now) ==>
      cache.entries[k] == old(cache.entries)[k]
    ensures forall k :: k in cache.entries ==> LoadedOrKept(cache.entries, old(cache.entries), k, provider, list, now)
    ensures |old(cache.entries)| + |list| <= cache.maxSize ==>
      && |cache.entries| <= |old(cache.entries)| + |list|
      && (forall k :: k in old(cache.entries) ==> k in cache.entries)
      && (forall j :: 0 <= j < |list| ==> list[j].id in cache.entries)
  {
    ghost var prior := cache.entries;
    assert list[..0] == [];
    for i := 0 to |list|
      invariant cache.maxSize == old(cache.maxSize)
      invariant CachedSoFar(cache.entries, prior, cache.maxSize, provider, list, i, now)
    {
      CacheOne(cache, provider, list, i, now, prior);
    }
    CachedDone(cache.entries, prior, cache.maxSize, provider, list, now);
  }

  /** What the caching loop keeps after the first `i` emotes of `list`: the
      size bound, every entry kept or loaded, and, when the whole list fits,
      no eviction. */
  predicate CachedSoFar(entries: map<string, EmoteCache.CachedEmote>, prior: map<string, EmoteCache.CachedEmote>,
                        maxSize: nat, provider: string, list: seq<EmoteData>, i: nat, now: nat)
    requires i <= |list|
  {
    && (1 <= maxSize && |prior| <= maxSize ==> |entries| <= maxSize)
    && (forall k :: k in entries ==> LoadedOrKept(entries, prior, k, provider, list[..i], now))
    && (|prior| + |list| <= maxSize ==>
        && |entries| <= |prior| + i
        && (forall k :: k in prior ==> k in entries)
        && (forall j :: 0 <= j < i ==> list[j].id in entries))
  }

  /** One round of the caching loop. */
  method CacheOne(cache: EmoteCache.EmoteCache, provider: string, list: seq<EmoteData>, i: nat, now: nat,
                  ghost prior: map<string, EmoteCache.CachedEmote>)
    requires i < |list| && CachedSoFar(cache.entries, prior, cache.maxSize, provider, list, i, now)
    modifies cache`entries
    ensures CachedSoFar(cache.entries, prior, cache.maxSize, provider, list, i + 1, now)
  {
    ghost var before := cache.entries;
    cache.Insert(list[i].id, ToEmote(list[i], provider, []), now);
    CachedStep(before, cache.entries, prior, cache.maxSize, provider, list, i, now);
  }

  /** An insertion of the `i`-th emote extends the caching loop's state. */
  lemma CachedStep(before: map<string, EmoteCache.CachedEmote>, after: map<string, EmoteCache.CachedEmote>,
                   prior: map<string, EmoteCache.CachedEmote>, maxSize: nat, provider: string, list: seq<EmoteData>,
                   i: nat, now: nat)
    requires i < |list| && CachedSoFar(before, prior, maxSize, provider, list, i, now)
    requires list[i].id in after && after[list[i].id] == EmoteCache.Fresh(ToEmote(list[i], provider, []), now)
    requires forall k :: k in after && k != list[i].id ==> k in before && after[k] == before[k]
    requires 1 <= maxSize && |before| <= maxSize ==> |after| <= maxSize
    requires |before| < maxSize ==> after == before[list[i].id := EmoteCache.Fresh(ToEmote(list[i], provider, []), now)]
    ensures CachedSoFar(after, prior, maxSize, provider, list, i + 1, now)
  {
    forall k | k in after
      ensures LoadedOrKept(after, prior, k, provider, list[..i + 1], now)
    {
      CachedStepAt(before, after, prior, provider, list, i, now, k);
    }
    if |prior| + |list| <= maxSize {
      assert |before| < maxSize;
      forall j | 0 <= j < i + 1 ensures list[j].id in after {
        if j < i { assert list[j].id in before; }
      }
    }
  }

  lemma CachedStepAt(before: map<string, EmoteCache.CachedEmote>, after: map<string, EmoteCache.CachedEmote>,
                     prior: map<string, EmoteCache.CachedEmote>, provider: string, list: seq<EmoteData>,
                     i: nat, now: nat, k: string)
    requires i < |list| && k in after
    requires forall k :: k in before ==> LoadedOrKept(before, prior, k, provider, list[..i], now)
    requires list[i].id in after && after[list[i].id] == EmoteCache.Fresh(ToEmote(list[i], provider, []), now)
    requires forall k :: k in after && k != list[i].id ==> k in before && after[k] == before[k]
    ensures LoadedOrKept(after, prior, k, provider, list[..i + 1], now)
  {
    if k != list[i].id {
      assert LoadedOrKept(before, prior, k, provider, list[..i], now);
      LoadedOrKeptGrow(after, prior, k, provider, list[..i], list[..i + 1], now);
    } else {
      assert list[..i + 1][i] == list[i];
    }
  }

  /** The caching loop's state after the whole list gives its postcondition. */
  lemma CachedDone(entries: map<string, EmoteCache.CachedEmote>, prior: map<string, EmoteCache.CachedEmote>,
                   maxSize: nat, provider: string, list: seq<EmoteData>, now: nat)
    requires CachedSoFar(entries, prior, maxSize, provider, list, |list|, now)
    ensures forall k :: k in entries ==> LoadedOrKept(entries, prior, k, provider, list, now)
    ensures forall k :: k in entries ==> k in prior || FreshGlobal(entries[k], k, now)
    ensures forall k :: k in entries && k in prior && !FreshGlobal(entries[k], k, now) ==> entries[k] == prior[k]
  {
    assert list[..|list|] == list;
    forall k | k in entries ensures (k in prior && entries[k] == prior[k]) || FreshGlobal(entries[k], k, now) {
      if !(k in prior && entries[k] == prior[k]) {
        var j :| 0 <= j < |list| && list[j].id == k && entries[k] == EmoteCache.Fresh(ToEmote(list[j], provider, []), now);
      }
    }
  }

  /** The entry under `k` is the one `prior` had, or the fresh entry of an
      emote of `list` with that id. */
  predicate LoadedOrKept(entries: map<string, EmoteCache.CachedEmote>, prior: map<string, EmoteCache.CachedEmote>,
                         k: string, provider: string, list: seq<EmoteData>, now: nat)
    requires k in entries
  {
    (k in prior && entries[k] == prior[k])
    || exists j :: 0 <= j < |list| && list[j].id == k && entries[k] == EmoteCache.Fresh(ToEmote(list[j], provider, []), now)
  }

  lemma LoadedOrKeptGrow(entries: map<string, EmoteCache.CachedEmote>, prior: map<string, EmoteCache.CachedEmote>,
                         k: string, provider: string, list: seq<EmoteData>, longer: seq<EmoteData>, now: nat)
    requires k in entries && list <= longer
    requires LoadedOrKept(entries, prior, k, provider, list, now)
    ensures LoadedOrKept(entries, prior, k, provider, longer, now)
  {
    if !(k in prior && entries[k] == prior[k]) {
      var j :| 0 <= j < |list| && list[j].id == k && entries[k] == EmoteCache.Fresh(ToEmote(list[j], provider, []), now);
      assert longer[j] == list[j];
    }
  }

  /** The tail after `n` of a prefix of `s` is a sub-multiset of the tail of `s`. */
  lemma PrefixTail(s: seq<Emote>, n: nat, m: nat)
    requires n <= m <= |s|
    ensures multiset(s[..m][n..]) <= multiset(s[n..])
  {
    assert s[n..] == s[n..m] + s[m..];
    assert s[..m][n..] == s[n..m];
  }
}
