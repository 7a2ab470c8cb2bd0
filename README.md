# overlay-native chat core in Dafny

This project models the deterministic core of overlay-native, a desktop overlay
that shows live chat from Twitch, Kick and YouTube. It covers:

- the emote cache, with its TTL and LRU eviction;
- the Twitch emote-tag parser and third-party emote detection;
- the emote pipeline that merges provider results;
- the providers' retry schedule and field-mapping rules;
- image-format sniffing and emote URL resolution;
- the message-mapping layer (transformer, data mapper, platform adapters);
- the shared platform helpers (rate limiter, generic emote and badge parsers,
  message filters, sanitizers, URL-to-channel extraction, platform factory,
  credential store);
- configuration validation;
- the pure and state-keeping parts of the Twitch and Kick platforms.

Each source file becomes one Dafny module:

| module | file | source |
|---|---|---|
| `EmoteCache` | emote_cache.dfy | src/emotes/cache.rs |
| `EmoteParser` | emote_parser.dfy | src/emotes/parser.rs |
| `EmoteSystem` | emote_system.dfy | src/emotes/mod.rs |
| `Providers` | providers.dfy | src/emotes/providers.rs |
| `Renderer` | renderer.dfy | src/emotes/renderer.rs |
| `MappingTypes` | mapping_types.dfy | src/mapping/mod.rs (the types of lines 84-249) |
| `Transformer` | message_transformer.dfy | src/mapping/message_transformer.rs |
| `DataMapper` | data_mapper.dfy | src/mapping/data_mapper.rs |
| `Mapping` | mapping.dfy | src/mapping/mod.rs |
| `PlatformBase` | platform_base.dfy | src/platforms/base.rs |
| `Platforms` | platform_utils.dfy | src/platforms/mod.rs |
| `Twitch` | twitch.dfy | src/platforms/twitch.rs |
| `Kick` | kick.dfy | src/platforms/kick.rs |
| `Config` | config.dfy | src/config.rs |

Shared modules:

- `Wrappers`: `Option` and `Result`.
- `Text`: ASCII string operations, including case mapping, substring search,
  splitting and decimal parsing.
- `Json`: a `serde_json::Value` without floats.
- `Connection`: the emote, badge and chat-message types every layer exchanges.

Modelling conventions:

- **Text.** Strings are ASCII `seq<char>`, so byte offsets and `chars().nth`
  agree.
- **Time.** Clocks are explicit `now: nat` parameters, in seconds.
- **Outside answers.** What a network call, WebSocket or IRC client would
  answer is passed in as a parameter.
- **Maps with unspecified order.** A `HashMap` whose iteration order the code
  leaves open is described by its key set, or by a multiset.
- **Methods and state.** Loops and in-place updates are methods on classes.
  Each method is proved against a specification function.

## Model

| member | source | states |
|---|---|---|
| Config.ParsePlatformType | src/config.rs:36-44 | the lowercase serde names of the five platform types, and nothing else (see PlatformTypeRoundTrip) |
| Config.Validate | src/config.rs:324-363 | the checks of `validate` in source order, each failing with its own message (see ValidateIffWellFormed) |
| Config.DefaultConfig | src/config.rs:366-493 | `Config::default()` (see DefaultConfigValid) |
| Config.MessageDurationSeconds | src/config.rs:276-278 | the window's message duration in seconds (see ValidDurationPositive) |
| Config.PlatformTypeRoundTrip | src/config.rs:46-56 | every platform type reads back from its displayed lowercase name, and only displayed names read as platform types |
| Config.FirstMissingPlatform | src/config.rs:340-347 | the first connection, in order, whose platform is not configured; None exactly when every connection's platform is configured |
| Config.ValidateIffWellFormed | src/config.rs:324-363 | `validate` accepts exactly the configurations with an enabled platform, an enabled connection, every connection naming a configured platform, and a positive duration and window count; every rejection is a ValidationError |
| Config.NoPlatformsRejected | src/config.rs:326-330 | an empty platform map fails the first check with its message |
| Config.DisabledDanglingRejected | src/config.rs:340-347 | a connection naming a missing platform makes validation fail even when that connection is disabled |
| Config.DefaultConfigValid | src/config.rs:366-493 | `Config::default()` passes validation |
| Config.Save | src/config.rs:265-274 | saving succeeds exactly for well-formed configurations and otherwise returns the validation's own error, so an invalid configuration is never written |
| Config.EnabledConnections | src/config.rs:288-293 | the enabled connections, exactly, and no more of them than there are connections |
| Config.EnabledConnectionsAppend | src/config.rs:288-293 | the filter distributes over concatenation, so connection order is kept |
| Config.EnabledPlatforms | src/config.rs:280-286 | exactly the names whose platform configuration is enabled, as a set |
| Config.ValidHasSomethingEnabled | src/config.rs:280-293 | a valid configuration has an enabled platform and an enabled connection |
| Config.GetPlatformConfig | src/config.rs:295-297 | a map lookup: Some exactly for configured names, with that name's configuration |
| Config.ValidConnectionsResolve | src/config.rs:295-297 | every connection of a valid configuration finds its platform's configuration |
| Config.ValidDurationPositive | src/config.rs:276-278 | a valid configuration shows messages for a positive number of seconds |
| EmoteCache.LeastRecentExists | src/emotes/cache.rs:219-228 | a non-empty cache always has an entry of minimal last-access time, so `evict_lru` always has something to remove |
| EmoteCache.Exported | src/emotes/cache.rs:189-196 | the export has exactly the cache's keys, each mapped to its stored emote |
| EmoteCache.ExportImportRoundTrip | src/emotes/cache.rs:189-216 | importing an export into an empty cache and exporting again gives back the same key-to-emote map |
| EmoteCache.ImportKeys | src/emotes/cache.rs:199-216 | after an import the keys are the old keys plus the imported ones; imported keys hold fresh entries (created and accessed now, zero accesses) that overwrite old ones; other entries are untouched |
| EmoteCache.PreloadedBounded | src/emotes/cache.rs:246-252 | preloading never pushes the cache past its maximum size and never drops a key that was already stored |
| EmoteCache.EmoteCache.constructor | src/emotes/cache.rs:39-52 | an empty cache with zero counters; the TTL is `ttl_hours * 3600` seconds, saturating at the u64 maximum; the default maximum size and cleanup interval |
| EmoteCache.EmoteCache.Get | src/emotes/cache.rs:54-74 | an absent key is a miss that changes nothing else; an entry older than the TTL is removed and counted as a miss; any other entry is a hit that returns its emote, sets its last access to now and adds one to its access count |
| EmoteCache.EmoteCache.EvictLru | src/emotes/cache.rs:219-228 | removes exactly one entry of minimal last-access time from a non-empty cache; an empty cache stays empty |
| EmoteCache.EmoteCache.Insert | src/emotes/cache.rs:76-93 | the key ends up holding a fresh entry; below capacity nothing else changes; at capacity exactly one least recently used entry is evicted first, even when the key is already present; the size bound is kept; no other entry changes |
| EmoteCache.EmoteCache.Remove | src/emotes/cache.rs:95-98 | the key is gone, nothing else changes, and the stored emote is returned exactly when the key was present |
| EmoteCache.EmoteCache.IsEmpty | src/emotes/cache.rs:100-103 | true exactly when the cache holds no entry |
| EmoteCache.EmoteCache.Cleanup | src/emotes/cache.rs:115-131 | keeps exactly the entries whose age does not exceed the TTL, unchanged, and records now as the last cleanup |
| EmoteCache.EmoteCache.ExpiredKeys | src/emotes/cache.rs:117-123 | the collected keys are exactly those of entries older than the TTL |
| EmoteCache.EmoteCache.RemoveKeys | src/emotes/cache.rs:125-127 | removes exactly the given keys; every other entry stays, unchanged |
| EmoteCache.EmoteCache.Clear | src/emotes/cache.rs:133-139 | no entries, both counters zero, last cleanup now |
| EmoteCache.EmoteCache.ResetStats | src/emotes/cache.rs:164-168 | both counters are zero and the entries are untouched |
| EmoteCache.EmoteCache.GetBySource | src/emotes/cache.rs:170-177 | exactly the cached emotes from that source: a listing of the matching entries, one emote per entry under distinct keys, so as a multiset the matching entries' emotes |
| EmoteCache.EmoteCache.SearchByName | src/emotes/cache.rs:179-186 | exactly the cached emotes whose name contains the query, ignoring ASCII case: a listing of the matching entries, one emote per entry under distinct keys, so as a multiset the matching entries' emotes |
| EmoteCache.EmoteCache.Select | src/emotes/cache.rs:170-186 | the filter over the cached values shared by both queries: one emote per entry that passes, each one passing, and every passing entry's emote included; the result lists the passing entries' emotes under distinct keys (`ListsMatching`) |
| EmoteCache.ListedCount | src/emotes/cache.rs:170-186 | a listing of the matching entries has exactly as many elements as there are matching keys, and holds every matching entry's emote |
| EmoteCache.EmoteCache.NeedsCleanup | src/emotes/cache.rs:109-112 | more than the cleanup interval has passed since the last cleanup |
| EmoteCache.EmoteCache.IsExpired | src/emotes/cache.rs:140-143 | more than the TTL has passed since the last cleanup |
| EmoteCache.EmoteCache.Export | src/emotes/cache.rs:189-196 | the key-to-emote map of the current entries |
| EmoteCache.EmoteCache.Import | src/emotes/cache.rs:199-216 | every imported key is (over)written with a fresh entry created now; see ImportKeys |
| EmoteCache.EmoteCache.SetMaxSize | src/emotes/cache.rs:231-238 | sets the maximum; evicts least recently used entries until at most `n` remain, removing exactly the excess; kept entries are unchanged, and no evicted entry was used later than a kept one |
| EmoteCache.EmoteCache.SetTtl | src/emotes/cache.rs:241-243 | the TTL becomes `ttl_hours * 3600` seconds; the source's multiplication must not overflow a u64 |
| EmoteCache.EmoteCache.PreloadPopular | src/emotes/cache.rs:246-252 | inserts the emotes in order, each under its id, only while the cache is below its maximum size (see PreloadedBounded) |
| EmoteCache.EmoteCache.GetMostAccessed | src/emotes/cache.rs:255-264 | `min(limit, len)` distinct cached entries with their access counts, in descending count order; no entry left out has a higher count than one returned |
| EmoteParser.ClassifyTwitchSource | src/emotes/parser.rs:82-88 | TwitchGlobal exactly for ids starting with `emotesv2_`; otherwise TwitchSubscriber exactly for all-digit ids (the empty id included); Twitch for the rest |
| EmoteParser.TwitchSpans | src/emotes/parser.rs:56-81 | every span taken from the tag has both ends inside the message; ranges that do not parse as two unsigned numbers, or that fall outside, are skipped |
| EmoteParser.TwitchEmotesShape | src/emotes/parser.rs:53-115 | every parsed Twitch emote has one position, names exactly the message slice it covers, carries the classified source, the CDN URL built from its id, and its id as emote set |
| EmoteParser.EmptyTagNoEmotes | src/emotes/parser.rs:56-58 | an empty emote tag yields no emotes |
| EmoteParser.ParseEncodedTag | src/emotes/parser.rs:60-81 | round trip: writing well-formed entries as `id:s-e,s-e/id:...` and parsing the tag gives back exactly their spans, in order |
| EmoteParser.ParseTwitchEmotes | src/emotes/parser.rs:53-115 | the loop over `/`-separated entries and `,`-separated ranges returns exactly the specification's emotes, in tag order |
| EmoteParser.ParseRange | src/emotes/parser.rs:71-79 | one `start-end` range gives a span exactly when it has two `-`-pieces that parse as unsigned numbers, both inside the message; otherwise nothing |
| EmoteParser.RegisteredLookup | src/emotes/parser.rs:41-45 | after registration a name is known exactly when it was known or registered; the last registration of a name wins, and names not registered keep their old info |
| EmoteParser.RegisteredKeyed | src/emotes/parser.rs:41-45 | registration keeps the registry keyed by each info's own name |
| EmoteParser.DetectedInMessage | src/emotes/parser.rs:118-161 | every third-party emote detected in a message of single-space-separated words is a registered name whose one position covers exactly that word in the message |
| EmoteParser.DetectedNames | src/emotes/parser.rs:118-161 | the detected emotes are exactly the registered words, one per occurrence, in word order |
| EmoteParser.NextMatch | src/emotes/parser.rs:166 | the next occurrence at or after `k`, which lies inside the text |
| EmoteParser.NextMatchFirst | src/emotes/parser.rs:166 | no occurrence lies between `k` and the one NextMatch reports |
| EmoteParser.PositionsSound | src/emotes/parser.rs:163-198 | every reported position is an occurrence of the name, at a word boundary, with `end = start + len - 1`, and positions strictly increase without overlapping |
| EmoteParser.AbsentNameNoPositions | src/emotes/parser.rs:163-198 | a name that does not occur in the text has no positions |
| EmoteParser.FindPositionsExample | src/emotes/parser.rs:366-376 | the positions of "Kappa" in the source's test sentence are exactly 6-10 and 18-22 |
| EmoteParser.FindEmotePositions | src/emotes/parser.rs:163-198 | the search loop, which resumes after each match, returns exactly the specification's positions |
| EmoteParser.SearchRound | src/emotes/parser.rs:167-194 | one round of the search: with no occurrence left it stops with every position found; otherwise the occurrence is kept exactly when it is a whole word, and the search resumes strictly further on, right after it |
| EmoteParser.SearchFrom | src/emotes/parser.rs:166 | the loop's search of `text[start..]`, shifted by `start`, is the next occurrence at or after `start` |
| EmoteParser.Dedup | src/emotes/parser.rs:226-238 | the result has exactly the input's ids, each once |
| EmoteParser.DedupIsFirstOccurrences | src/emotes/parser.rs:226-238 | deduplication keeps the first emote of each id, in input order |
| EmoteParser.DeduplicateEmotes | src/emotes/parser.rs:226-238 | the seen-set loop computes the specification's deduplication |
| EmoteParser.InsertByStartSorted | src/emotes/parser.rs:245-250 | inserting into a list sorted by descending first start keeps it sorted |
| EmoteParser.InsertByStartPerm | src/emotes/parser.rs:245-250 | inserting adds exactly that emote and loses none |
| EmoteParser.SortByStart | src/emotes/parser.rs:245-250 | a permutation of the emotes, ordered by descending first position (0 when none) |
| EmoteParser.ReplaceRange | src/emotes/parser.rs:256 | replacing `start..=end` changes the length by exactly the replacement's length minus the range's |
| EmoteParser.SortedPositionsOrdered | src/emotes/parser.rs:245-250 | sorting keeps every position well-formed |
| EmoteParser.PlainTextOrdered | src/emotes/parser.rs:253-258 | when every position is a well-formed `start..=end` range, `extract_plain_text` never reaches the panic of `replace_range` |
| EmoteParser.ReversedInTextPanics | src/emotes/parser.rs:254-256 | a reversed position inside the text passes the bounds test and makes `replace_range` panic (`None`) |
| EmoteParser.ReversedOutsideSkipped | src/emotes/parser.rs:254 | a reversed position beyond the text is skipped by the bounds test: "ab" with an emote at 5-0 stays "ab" |
| EmoteParser.PlainTextSingle | src/emotes/parser.rs:241-262 | for one emote with one in-bounds position, the plain text is the message with that range replaced by `:` and the name |
| EmoteParser.PlainTextExample | src/emotes/parser.rs:379-396 | "Hello Kappa world" with Kappa at 6-10 becomes "Hello :Kappa world" |
| EmoteParser.OutOfBoundsUnchanged | src/emotes/parser.rs:254-257 | positions whose start or end lies outside the current text, reversed or not, leave it unchanged and never panic |
| EmoteParser.ExtractPlainText | src/emotes/parser.rs:241-262 | the nested replacement loops compute the specification's plain text, `None` exactly where `replace_range` panics; never `None` when every position is well-formed |
| EmoteParser.ReplacePositions | src/emotes/parser.rs:253-258 | the inner loop over one emote's positions replaces, in order, each range still inside the current text by `:` and the name, skips the others, and stops with `None` at a reversed range inside the text |
| EmoteParser.HistogramBounds | src/emotes/parser.rs:298-306 | a source appears in the distribution exactly when some known emote has it, with a count between 1 and the number of known emotes |
| EmoteParser.HistogramAdd | src/emotes/parser.rs:298-306 | adding a new emote adds one to its source's count and leaves the others alone |
| EmoteParser.AllEmotesIds | src/emotes/parser.rs:201-224 | the combined result has an id exactly when the Twitch parse (on the "twitch" platform only) or third-party detection has it, and no id twice |
| EmoteParser.Parser.constructor | src/emotes/parser.rs:29-38 | no known emotes and no custom patterns |
| EmoteParser.Parser.RegisterKnownEmotes | src/emotes/parser.rs:41-45 | the registry becomes the specification's registration of the list, keyed by name |
| EmoteParser.Parser.RegisterCustomPattern | src/emotes/parser.rs:48-50 | adds the pattern's name to the custom patterns |
| EmoteParser.Parser.ClearKnownEmotes | src/emotes/parser.rs:284-286 | no known emotes remain |
| EmoteParser.Parser.GetEmoteInfo | src/emotes/parser.rs:279-281 | Some exactly for registered names, carrying that name |
| EmoteParser.Parser.IsValidEmote | src/emotes/parser.rs:265-276 | true exactly when the text is a registered name or contains an ASCII letter, digit or underscore; the unanchored patterns accept any such text |
| EmoteParser.Parser.DetectThirdPartyEmotes | src/emotes/parser.rs:118-161 | the loop over whitespace-separated words computes the specification's detection |
| EmoteParser.Parser.ParseAllEmotes | src/emotes/parser.rs:201-224 | returns the specification's combined, deduplicated list |
| EmoteParser.Parser.GetStats | src/emotes/parser.rs:289-296 | the number of known emotes, the number of custom patterns, and the source distribution |
| EmoteParser.SourceDistribution | src/emotes/parser.rs:298-306 | the counting loop computes exactly the distribution of known emotes by source |
| EmoteSystem.ToEmote | src/emotes/mod.rs:113-127 | the emote built from provider data: its fields, the provider's source, the positions and no tier |
| EmoteSystem.ProviderSource | src/emotes/mod.rs:169-179 | the five named providers map to their own source; every other name maps to Local, and only those do |
| EmoteSystem.ProviderSourceInjective | src/emotes/mod.rs:169-179 | no two named providers share a source |
| EmoteSystem.KnownThirdPartyOk | src/emotes/mod.rs:137-166 | the lookup succeeds exactly when no consulted provider fails (enabled in the configuration and registered); then its keys are exactly the consulted providers, each holding its channel emotes |
| EmoteSystem.KnownThirdPartyFirstError | src/emotes/mod.rs:137-166 | a failure is the error of the first failing provider in the order bttv, ffz, 7tv |
| EmoteSystem.KnownThirdPartyNamed | src/emotes/mod.rs:137-166 | the lookup's keys are among bttv, ffz and 7tv, and it passes the providers' named data through |
| EmoteSystem.ProviderEmotesSound | src/emotes/mod.rs:107-128 | every third-party emote comes from the provider's list, with the provider's source, no tier, and a non-empty list of whole-word positions of its name, as the position search finds them |
| EmoteSystem.ProviderEmotesComplete | src/emotes/mod.rs:107-128 | every datum whose name occurs as a whole word in the message is reported |
| EmoteSystem.CollectedRemove | src/emotes/mod.rs:107-108 | the emotes collected from a set of providers are one provider's share plus the rest's, whichever provider is taken out |
| EmoteSystem.CollectedMembers | src/emotes/mod.rs:107-128 | an emote is collected exactly when some visited provider contributes it |
| EmoteSystem.ThirdPartyEmotesMembers | src/emotes/mod.rs:99-131 | an emote is among the third-party emotes exactly when some known provider's list yields it |
| EmoteSystem.Enriched | src/emotes/mod.rs:63-72 | on a cache hit (present and not expired) the url, animation flag, width and height come from the cache entry; otherwise the emote is unchanged; id, name, source, positions and metadata never change |
| EmoteSystem.Truncated | src/emotes/mod.rs:89-92 | the first `min(n, len)` emotes, a prefix of the list |
| EmoteSystem.GlobalTotalRemove | src/emotes/mod.rs:185-216 | the preload total is one provider's list length (zero when it fails) plus the others' total, whichever provider is taken out |
| EmoteSystem.GlobalTotalAllFailed | src/emotes/mod.rs:214-218 | with every provider failing nothing is counted |
| EmoteSystem.System.constructor | src/emotes/mod.rs:24-43 | the four default providers, the configuration, and an empty cache whose TTL comes from the configured hours |
| EmoteSystem.System.RegisterProvider | src/emotes/mod.rs:45-47 | the name joins the registered providers; an existing name is replaced |
| EmoteSystem.System.GetKnownThirdPartyEmotes | src/emotes/mod.rs:137-166 | the three guarded lookups in order compute the specification's known emotes, stopping at the first error |
| EmoteSystem.System.ParseThirdPartyEmotes | src/emotes/mod.rs:99-134 | fails exactly when the lookup fails, with its error; otherwise the emotes are exactly the third-party emotes of the known lists, as a multiset, because map order is unspecified |
| EmoteSystem.System.ParseMessageEmotes | src/emotes/mod.rs:50-96 | fails exactly when third-party lookup is enabled and fails; otherwise at most the per-message cap; it starts with the platform emotes enriched from the cache, in order, followed by a sub-multiset of the third-party emotes, all of them when the cap allows; its length is exactly `min(cap, platform + third-party)`; the cache afterwards is as `LookupsApplied` describes for the platform emotes' ids |
| EmoteSystem.System.PreloadGlobalEmotes | src/emotes/mod.rs:181-236 | the total counts every successful provider's list, whether or not caching is on; the failed set is exactly the failing providers; with caching off the cache is untouched; the size bound is kept; every new or changed entry is the `ToEmote` of some successful provider's datum with that id, created now; when the cache has room for every list, every loaded id is cached |
| EmoteSystem.System.ClearCache | src/emotes/mod.rs:239-241 | the cache is empty with zero counters |
| EmoteSystem.System.IsCacheExpired | src/emotes/mod.rs:244-246 | true exactly when more than the TTL has passed since the cache's last cleanup |
| EmoteSystem.System.UpdateConfig | src/emotes/mod.rs:249-252 | the new configuration, the same providers, and a fresh empty cache with the new TTL |
| EmoteSystem.FindProviderEmotes | src/emotes/mod.rs:108-128 | the loop over one provider's list computes that provider's emotes |
| EmoteSystem.CollectedAlongAnyOrder | src/emotes/mod.rs:107-108 | visiting distinct providers in any order collects the same multiset of emotes |
| EmoteSystem.AddProviderEmotes | src/emotes/mod.rs:108-128 | one provider's round appends exactly its emotes |
| EmoteSystem.CollectThirdParty | src/emotes/mod.rs:107-131 | the loop over the known providers, in the map's order, collects exactly the third-party emotes |
| EmoteSystem.LookupStep | src/emotes/cache.rs:54-74 | one `get` (a miss, an expired removal or a hit) extends `LookupsApplied` by one looked-up id |
| EmoteSystem.EnrichFromCache | src/emotes/mod.rs:62-73 | each platform emote is enriched, in order, against the cache as it was before; afterwards the cache is as `LookupsApplied` describes: nothing added, every entry keeps its emote and creation time, entries never looked up are untouched, unexpired entries stay, looked-up expired entries are gone |
| EmoteSystem.CacheGlobals | src/emotes/mod.rs:191-211 | caching one provider's globals keeps the size bound; every entry is either an old one, unchanged, or the fresh `ToEmote` of a datum of the list under its id; with room for the whole list no old key is lost and every id of the list is cached |
| EmoteSystem.CachedDone | src/emotes/mod.rs:191-211 | at the end of the loop over one provider's list, the partial-progress invariant gives CacheGlobals' postconditions |
| EmoteSystem.PreloadDone | src/emotes/mod.rs:181-236 | once every provider is visited, the total is the sum of the successful lists, the failed set is exactly the failing providers, and the cache properties of PreloadGlobalEmotes hold |
| Providers.TryGetJson | src/emotes/providers.rs:79-103 | succeeds exactly on a 2xx response whose body decodes, with the decoded value; every failure (send, status or decode) is a network error naming the URL |
| Providers.Pow2 | src/emotes/providers.rs:55 | the doubling factor is at least 1 |
| Providers.FetchedFirstOk | src/emotes/providers.rs:47-76 | `get_json` returns the first successful attempt, after exactly that many attempts |
| Providers.FetchedAllFail | src/emotes/providers.rs:47-76 | when all three attempts fail, the third attempt's error is returned after three attempts |
| Providers.FetchedErrIff | src/emotes/providers.rs:47-76 | the result is an error exactly when every attempt fails, and between one and three attempts are made |
| Providers.GetJson | src/emotes/providers.rs:47-76 | the retry loop returns the specification's result, and waits 500 ms doubled per earlier retry before each attempt after the first |
| Providers.Converted | src/emotes/providers.rs:280-311 | one datum per element, converted in order |
| Providers.ConvertAll | src/emotes/providers.rs:280-311 | the push loop computes the elementwise conversion |
| Providers.ProviderName | src/emotes/providers.rs:244-246 | each provider's registry name is a default provider whose emote source is that provider's |
| Providers.ProviderNamesDistinct | src/emotes/providers.rs:244-246 | distinct providers have distinct names, and one of them is "twitch" |
| Providers.ParseEmotes | src/emotes/providers.rs:191-197 | the Twitch provider parses the tag exactly like the emote parser; the other providers report no emotes |
| Providers.TwitchChannelEmotes | src/emotes/providers.rs:199-237 | the Twitch provider's channel lookup is a placeholder that always answers an empty list |
| Providers.TwitchGlobalEmotes | src/emotes/providers.rs:239-242 | the Twitch provider's global lookup always answers an empty list |
| Providers.BttvData | src/emotes/providers.rs:280-333 | a BetterTTV emote becomes data with its code as name and the 3x CDN image; the modifier flag is kept only for global emotes |
| Providers.BttvUserEmotes | src/emotes/providers.rs:280-311 | a channel's own emotes followed by its shared ones, in order, none a modifier |
| Providers.BttvChannelEmotes | src/emotes/providers.rs:352-362 | nothing for platforms other than Twitch; otherwise the fetched user response converted, or its error; every emote has the 3x URL and is no modifier |
| Providers.BttvGlobalEmotes | src/emotes/providers.rs:315-337 | every fetched global emote converted, in order, or the fetch error |
| Providers.FfzUrl | src/emotes/providers.rs:424-428 | the `4` image when present, else the `2`, else the `1`; None exactly when none of them is present |
| Providers.FfzData | src/emotes/providers.rs:418-441 | an FFZ emote becomes data with its numeric id as decimal text, its best URL, animated only when flagged true, and the set it came from |
| Providers.FfzRoomEmotes | src/emotes/providers.rs:391-446 | only the emotes of the room's own set, each tagged with that set; nothing when the set is missing |
| Providers.FfzChannelEmotes | src/emotes/providers.rs:510-520 | nothing for platforms other than Twitch; otherwise the fetched room's emotes, or the fetch error |
| Providers.FfzGlobalEmotes | src/emotes/providers.rs:448-496 | the fetch error, or the emotes of every global set, set after set in some order of the sets |
| Providers.FlagBits | src/emotes/providers.rs:589-590 | bit 0 of the 7TV flags (odd flags) marks zero width and bit 1 marks a modifier |
| Providers.SevenTvData | src/emotes/providers.rs:580-594 | a 7TV emote becomes data with the 4x CDN image and both flag bits decoded |
| Providers.SevenTvUserEmotes | src/emotes/providers.rs:549-597 | nothing when the user has no emote set, otherwise one datum per emote of the set |
| Providers.SevenTvChannelEmotes | src/emotes/providers.rs:654-664 | nothing for platforms other than Twitch; otherwise the fetched user's emotes, or the fetch error |
| Providers.SevenTvGlobalEmotes | src/emotes/providers.rs:599-640 | every emote of the fetched global set converted, or the fetch error |
| Renderer.ResolveEmoteUrl | src/emotes/renderer.rs:102-123 | an explicit URL wins; otherwise each CDN source builds its own URL from the id (Twitch kinds, BetterTTV 3x, FFZ 4, 7TV 4x); it fails, with the source's message, exactly when there is no URL and no CDN source |
| Renderer.ResolvedUrlsDistinct | src/emotes/renderer.rs:102-123 | for a CDN source, different ids resolve to different URLs |
| Renderer.DetectImageFormat | src/emotes/renderer.rs:154-178 | fewer than 8 bytes is "File too small"; a success is one of png, gif, webp, riff or jpg |
| Renderer.SignaturesDisjoint | src/emotes/renderer.rs:154-178 | the PNG, GIF, RIFF and JPEG signatures exclude each other |
| Renderer.DetectImageFormatIff | src/emotes/renderer.rs:154-178 | each format is reported exactly when its signature matches and no earlier check claims the data; RIFF needs more than 12 bytes, and bytes 8-11 then decide webp versus riff |
| Renderer.DetectImageFormatExamples | src/emotes/renderer.rs:410-421 | a PNG signature is png; GIF89a is gif; an 8-byte RIFF header is an unknown format |
| Renderer.ProcessImage | src/emotes/renderer.rs:180-201 | passes the bytes through exactly when they fit 10 MB and, when both dimensions are known, neither is over 1024; otherwise it returns the size error for the first failing check |
| Renderer.Clamp | src/emotes/renderer.rs:340-347 | the value limited to `[lo, hi]`, unchanged when already inside |
| Renderer.ClampIdempotent | src/emotes/renderer.rs:340-347 | clamping twice is clamping once |
| Renderer.EmoteRenderer.constructor | src/emotes/renderer.rs:36-45 | 100 MB cache, png, gif and webp formats, 32x32 default size |
| Renderer.EmoteRenderer.SetDefaultSize | src/emotes/renderer.rs:340-343 | each side clamped to [8, 512] |
| Renderer.EmoteRenderer.SetMaxCacheSize | src/emotes/renderer.rs:345-347 | the size clamped to [1, 1000] MB |
| Transformer.NormalizeUsername | src/mapping/message_transformer.rs:59-68 | user name and display name lowercased, nothing else changed |
| Transformer.NormalizeChannel | src/mapping/message_transformer.rs:71-77 | only the channel lowercased |
| Transformer.NormalizeIdempotent | src/mapping/message_transformer.rs:59-77 | normalising twice is normalising once |
| Transformer.SystemVerdictStable | src/mapping/message_transformer.rs:89-94 | normalisation never changes whether a message counts as a system message, because the user-name test ignores case |
| Transformer.Prepared | src/mapping/message_transformer.rs:23-49 | the message before the system filter: user name and channel lowercased exactly when configured; content, emotes and platform untouched |
| Transformer.Stars | src/mapping/message_transformer.rs:393-399 | `n` stars |
| Transformer.Anonymize | src/mapping/message_transformer.rs:393-399 | same length; all stars up to two characters, otherwise the first character kept and the rest stars |
| Transformer.AnonymizeIdempotent | src/mapping/message_transformer.rs:393-399 | anonymising twice is anonymising once |
| Transformer.AnonymizeExamples | src/mapping/message_transformer.rs:626-631 | "username" becomes "u*******"; "ab" becomes "**" and "a" becomes "*" |
| Transformer.TitleCase | src/mapping/message_transformer.rs:179-193 | the title-case rewrite keeps the length |
| Transformer.TitleCaseIdempotent | src/mapping/message_transformer.rs:179-193 | title-casing twice is title-casing once |
| Transformer.FilterWordsAbsent | src/mapping/message_transformer.rs:163-174 | filtering words that do not occur leaves the content unchanged |
| Transformer.ContentTransform | src/mapping/message_transformer.rs:136-222 | only the content can change; it fails exactly on an unknown type, or on a regex pattern the engine refuses; without a type nothing changes; replace, prepend (prefix, space, content) and append (content, space, suffix) do what they say |
| Transformer.FilterWordsDefaultMask | src/mapping/message_transformer.rs:163-174 | without a replacement the listed words are masked with three stars |
| Transformer.OnNames | src/mapping/message_transformer.rs:226-276 | the rewrite is applied to the user name and to the display name when present; nothing else changes |
| Transformer.UserTransform | src/mapping/message_transformer.rs:226-276 | only the names can change, and a display name never appears or disappears; it fails exactly on an unknown type, with its message; anonimize keeps the user name's length; prefix puts the prefix first |
| Transformer.StrItems | src/mapping/message_transformer.rs:288-293 | exactly the string items of the JSON array |
| Transformer.FilterEmotes | src/mapping/message_transformer.rs:295-297 | never more emotes than before |
| Transformer.FilterEmotesMembers | src/mapping/message_transformer.rs:286-298 | exactly the emotes whose name is not listed survive |
| Transformer.FilterEmotesAppend | src/mapping/message_transformer.rs:295-297 | filtering distributes over concatenation, so relative order is kept |
| Transformer.RenameEmotes | src/mapping/message_transformer.rs:300-309 | each emote called `from` is renamed `to`; the others are unchanged; the count is kept |
| Transformer.SaturateU32 | src/mapping/message_transformer.rs:316-317 | the cast result lies in u32 range and equals the value when it already fits |
| Transformer.ScaleEmotes | src/mapping/message_transformer.rs:311-320 | the count is kept |
| Transformer.EmoteTransform | src/mapping/message_transformer.rs:280-337 | only the emote list can change; it fails exactly on an unknown type, with its message; filter keeps exactly the emotes whose name is not listed |
| Transformer.RenameRemovesName | src/mapping/message_transformer.rs:300-309 | after renaming `from` to a different name, no emote is called `from` |
| Transformer.UserLevelSatisfies | src/mapping/message_transformer.rs:402-453 | the satisfaction table of `user_level_satisfies` (see UserLevelSatisfiesIff) |
| Transformer.UserLevelSatisfiesIff | src/mapping/message_transformer.rs:402-453 | the satisfaction table is the rank order Normal < Subscriber < Vip < Moderator < Broadcaster < Staff < Admin < GlobalModerator, and an Unknown requirement is never met |
| Transformer.UserLevelSatisfiesOrder | src/mapping/message_transformer.rs:402-453 | satisfaction is reflexive for known levels and transitive |
| Transformer.ParseLevelName | src/mapping/message_transformer.rs:363-373 | the accepted names give known levels from Normal to Broadcaster |
| Transformer.GenericTransform | src/mapping/message_transformer.rs:340-390 | only the content can change, and only by max_message_length, which truncates to the limit and appends "..."; it fails exactly when the content is below min_message_length, or the required level name is invalid or not met |
| Transformer.ApplyAllKeepsFrame | src/mapping/message_transformer.rs:103-124 | a list of transforms never changes platform, channel, badges, timestamp, type, user level or metadata |
| Transformer.ApplyAlongKeepsFrame | src/mapping/message_transformer.rs:97-131 | the custom mappings, in any order, keep that frame |
| Transformer.EnumerationExists | src/mapping/message_transformer.rs:102 | every mapping table can be walked in some order that lists each key once |
| Transformer.EmptyWordBlocksAll | src/mapping/message_transformer.rs:508-532 | an empty blocked word refuses every message |
| Transformer.PrefixByLevel | src/mapping/message_transformer.rs:562-570 | the level's prefix goes before the user name when it has one; otherwise the message is unchanged |
| Transformer.DefaultPrefixLevels | src/mapping/message_transformer.rs:546-553 | with the default prefixes exactly subscribers, VIPs, moderators and the broadcaster are marked |
| Transformer.ContentFilterTransform | src/mapping/message_transformer.rs:508-532 | refused exactly when some blocked word occurs, ignoring ASCII case unless case-sensitive; otherwise the message passes unchanged |
| Transformer.MessageTransformer.constructor | src/mapping/message_transformer.rs:14-20 | no registered transformers |
| Transformer.MessageTransformer.RegisterTransformer | src/mapping/message_transformer.rs:467-469 | appended after the ones already registered |
| Transformer.MessageTransformer.ApplyRegisteredTransformers | src/mapping/message_transformer.rs:472-480 | the registered transforms in registration order, stopping at the first error |
| Transformer.MessageTransformer.ApplyTransforms | src/mapping/message_transformer.rs:103-124 | the loop over one transform list computes the in-order application, stopping at the first error |
| Transformer.MessageTransformer.ApplyCustomTransformations | src/mapping/message_transformer.rs:97-131 | the custom mappings applied in some enumeration of the map, since its order is unspecified |
| Transformer.MessageTransformer.Transform | src/mapping/message_transformer.rs:23-54 | a system message is refused after normalisation when filtering is on; otherwise the custom mappings are applied to the prepared message; a success keeps the prepared message's frame |
| DataMapper.ApplyFieldTransformation | src/mapping/data_mapper.rs:158-218 | succeeds exactly for a known field with an operation it supports; an unknown field, or an unsupported operation, gives its own validation error; only the named field changes; lowercase lowercases it; filter_words masks the listed words in the content |
| DataMapper.LowercaseIdempotent | src/mapping/data_mapper.rs:170-172 | lowercasing the user name twice is lowercasing it once |
| DataMapper.FieldTransformsKeep | src/mapping/data_mapper.rs:123-155 | field transformations change only the user name and the content |
| DataMapper.EmptyChannelHighlights | src/mapping/data_mapper.rs:270-278 | an empty channel name is contained in every message, so every message on it is highlighted |
| DataMapper.StaffNotHighlightedByLevel | src/mapping/data_mapper.rs:270-278 | normal users, staff, admins and global moderators are highlighted exactly when the content mentions the channel, ignoring case |
| DataMapper.U32Field | src/mapping/data_mapper.rs:321-345 | present exactly when the raw field is a u64, then that value truncated to u32 as `as u32` does |
| DataMapper.DigitRunEnd | src/mapping/data_mapper.rs:311 | the end of the digit run starting at `i` |
| DataMapper.SpaceRunEnd | src/mapping/data_mapper.rs:311 | the end of the white-space run starting at `i` |
| DataMapper.FirstCheer | src/mapping/data_mapper.rs:311-312 | the leftmost position where digits, optional white space and "bit" in any case match; None exactly when there is none |
| DataMapper.CheerAtRunStart | src/mapping/data_mapper.rs:311-312 | a match that follows a digit is preceded by another match |
| DataMapper.LeftmostStartsRun | src/mapping/data_mapper.rs:311-312 | the leftmost match starts a whole digit run |
| DataMapper.ParseCheerAmount | src/mapping/data_mapper.rs:309-318 | an amount is below 2^32 (larger runs give None); no match gives None |
| DataMapper.ParseCheerAmountExamples | src/mapping/data_mapper.rs:453-460 | "Cheer50bits" gives 50 and "no bits" gives none |
| DataMapper.ParseCheerAmountSpaced | src/mapping/data_mapper.rs:311-312 | white space may separate the number from "bits": "cheer100 bits" gives 100 |
| DataMapper.ExtractCheerAmount | src/mapping/data_mapper.rs:299-306 | only Cheer messages carry an amount, always a u32 |
| DataMapper.Metadata | src/mapping/data_mapper.rs:93-115 | the action and /me flags both mean the content starts with "/me"; whisper means the Whisper type; highlight as `is_highlighted`; never deleted; cheer amount, months, raid viewers and timeout duration from their extractors; reply and thread ids from the raw data |
| DataMapper.DataMapper.constructor | src/mapping/data_mapper.rs:18-71 | only the Twitch user-level and message-type tables, the emote-source table, no custom mappings |
| DataMapper.DataMapper.RegisterCustomMappings | src/mapping/data_mapper.rs:359-362 | the platform's custom mappings are replaced; the other tables are untouched |
| DataMapper.DataMapper.RegisterUserLevelMappings | src/mapping/data_mapper.rs:364-371 | the platform's user-level table is replaced; the others are untouched |
| DataMapper.DataMapper.RegisterMessageTypeMappings | src/mapping/data_mapper.rs:373-380 | the platform's message-type table is replaced; the others are untouched |
| DataMapper.DataMapper.GetStats | src/mapping/data_mapper.rs:382-388 | the platforms with user-level tables, their number, and the number of custom mapping entries |
| DataMapper.DataMapper.ApplyCustomMappings | src/mapping/data_mapper.rs:123-155 | the loop applies the platform's field transformations in order, stopping at the first error |
| DataMapper.DataMapper.MapData | src/mapping/data_mapper.rs:73-120 | fails exactly when a field transformation fails, with its error; otherwise the record has the given id, copies platform, channel, time, level, type, emotes, badges and display name unchanged, takes user name and content from the transformed message, and computes its metadata; the result is `MappedOf` the message |
| DataMapper.MappedOf | src/mapping/data_mapper.rs:73-120 | the record `map_data` builds: the field transformations' error, or the transformed message's fields with their metadata |
| DataMapper.MapEmotes | src/mapping/data_mapper.rs:221-244 | the field-by-field copy returns the same emotes in the same order |
| DataMapper.MapBadges | src/mapping/data_mapper.rs:247-267 | the field-by-field copy returns the same badges in the same order |
| Mapping.BadgeLevel | src/mapping/mod.rs:279-299 | the level each recognised badge id names (see BadgeLevelIsTable) |
| Mapping.BadgeLevelIsTable | src/mapping/mod.rs:279-299 | the badge ids the user extraction recognises are exactly the named entries of the data mapper's Twitch level table, with the same levels |
| Mapping.MapUserLevel | src/mapping/mod.rs:418-429 | the data mapper's Twitch level table looked up in lower case; Normal for anything else |
| Mapping.MapMessageType | src/mapping/mod.rs:431-442 | the data mapper's table of IRC commands looked up in lower case; Unknown for anything else |
| Mapping.TwitchTablesIgnoreCase | src/mapping/mod.rs:418-442 | a name and its lower-case form map to the same level and type |
| Mapping.FirstBadgeLevelIsFirst | src/mapping/mod.rs:275-304 | the user is Normal exactly when no badge id names a level; otherwise the first badge that names one decides it |
| Mapping.TwitchUserOf | src/mapping/mod.rs:259-309 | without a `user` object the user is "unknown", without display name, Normal; otherwise the display name is the string under `display_name` |
| Mapping.ExtractUserFromTwitchMessage | src/mapping/mod.rs:259-309 | the badge loop, which returns at the first badge naming a level, computes the specification's user |
| Mapping.TwitchPositions | src/mapping/mod.rs:326-340 | at most one position per entry: those with a numeric start and end |
| Mapping.TwitchEmote | src/mapping/mod.rs:341-365 | an entry's emote has its id and name, the Twitch source, no URL, 28x28, and its id as emote set |
| Mapping.TwitchEmotesOf | src/mapping/mod.rs:312-370 | at most one emote per entry |
| Mapping.TwitchEmotesMembers | src/mapping/mod.rs:312-370 | an entry gives an emote exactly when it has a string id and name, and every emote comes from such an entry |
| Mapping.ExtractEmotesFromTwitch | src/mapping/mod.rs:312-370 | the loop over the `emotes` array computes the specification's emotes, in order |
| Mapping.TwitchBadgesOf | src/mapping/mod.rs:448-475 | at most one badge per entry |
| Mapping.TwitchBadgesShape | src/mapping/mod.rs:448-475 | every badge is a Twitch badge named by its id, whose URL is the badge CDN followed by id and version |
| Mapping.TwitchBadgesSkip | src/mapping/mod.rs:448-475 | entries without a string id or version give no badge; every entry gives a badge exactly when all have both |
| Mapping.ExtractBadges | src/mapping/mod.rs:448-475 | the loop over the `badges` array computes the specification's badges, in order |
| Mapping.AdapterUserLevel | src/mapping/mod.rs:418-429 | the YouTube and Kick placeholders know no levels; the Twitch adapter's levels are those its badge table names |
| Mapping.AdapterMessageType | src/mapping/mod.rs:431-442 | the placeholders call everything Normal; only the Twitch adapter says Unknown, exactly for unknown commands |
| Mapping.TransformMessage | src/mapping/mod.rs:375-412 | never fails; keeps platform, channel, time and raw data; the Twitch adapter reads content (or ""), user, level and type from the raw data, with Normal when there is no type; the placeholders give no emotes or badges, Normal level and type; the result is exactly the adapter's `Standardized` message, including the Twitch display name, emotes and badges and the placeholders' fixed user, display name and content |
| Mapping.MappingSystem.constructor | src/mapping/mod.rs:21-35 | the Twitch, YouTube and Kick adapters, the configuration, a fresh data mapper without custom mappings and a fresh transformer |
| Mapping.MappingSystem.MapMessage | src/mapping/mod.rs:38-60 | UnsupportedPlatform exactly for a platform without an adapter, and for no other reason; a success has the given id, the platform and time of the raw message, and its channel lowercased exactly when configured; for a supported platform the result is exactly `Mapped` of the adapter's message along some enumeration of the custom mappings |
| Mapping.Standardized | src/mapping/mod.rs:375-571 | the adapters' `transform_message`: the Twitch adapter reads user, display name, content, emotes, badges, level and type from the raw data; the YouTube and Kick placeholders give fixed user, display name and content, no emotes or badges, Normal level and type; all keep platform, channel, time and raw data |
| Mapping.Mapped | src/mapping/mod.rs:38-60 | the pipeline after the adapter: the transformer's preparation, its system-message filter, its custom mappings in the given order, then the data mapper |
| Mapping.MappedFrame | src/mapping/mod.rs:38-60 | a mapped message has the given id and keeps the platform, badges, time, level and type; its channel is lowercased exactly when configured; its metadata is computed from a message with the same raw data and its final content |
| Mapping.MappedPlain | src/mapping/mod.rs:38-60 | with no custom mappings or field transformations and no filtering, the mapped record is the prepared message's fields with their metadata |
| Mapping.DefaultTwitchMapping | src/mapping/mod.rs:174-186 | with the default `MappingConfig` a Twitch message always maps, with lowercased user name and channel, and the content, emotes, badges and level of its raw data |
| Mapping.MappingSystem.RegisterAdapter | src/mapping/mod.rs:63-65 | the platform's adapter is replaced and nothing else changes |
| Mapping.MappingSystem.SupportedPlatforms | src/mapping/mod.rs:68-70 | exactly the platforms with an adapter |
| Mapping.MappingSystem.UpdateConfig | src/mapping/mod.rs:73-75 | only the configuration changes |
| Mapping.TransformErrors | src/mapping/mod.rs:51-53 | the transformer never reports an unsupported platform |
| Mapping.DataMapperErrors | src/mapping/mod.rs:56 | the data mapper only reports validation errors |
| PlatformBase.Refreshed | src/platforms/base.rs:61-70 | a window whose reset is at least one second (per-second) or sixty seconds (per-minute) old restarts at zero from now; a younger window keeps its count and reset instant; the limits never change |
| PlatformBase.Recorded | src/platforms/base.rs:79-82 | `k` recorded messages add `k` to both window counts |
| PlatformBase.BurstBounded | src/platforms/base.rs:61-82 | if sending is still allowed after recording `k` messages within the same instant, then `k` is below both limits: no burst exceeds them |
| PlatformBase.ZeroLimitBlocks | src/platforms/base.rs:61-77 | a per-second limit of zero never lets a message through |
| PlatformBase.RateLimiter.constructor | src/platforms/base.rs:50-58 | the given limits, both counters zero, both windows reset now |
| PlatformBase.RateLimiter.CanSendMessage | src/platforms/base.rs:61-77 | the expired windows are reset, and the answer is whether both counts are below their limits |
| PlatformBase.RateLimiter.RecordMessage | src/platforms/base.rs:79-82 | one more message in both windows |
| PlatformBase.DefaultEmoteSource | src/platforms/base.rs:225-233 | the emote source named after the platform |
| PlatformBase.DefaultEmoteSourceInjective | src/platforms/base.rs:225-233 | distinct platforms give distinct sources |
| PlatformBase.GenericEmotesOf | src/platforms/base.rs:137-158 | one emote per span, covering exactly that slice of the content, under the platform's source |
| PlatformBase.GenericIsTwitchRelabelled | src/platforms/base.rs:109-162 | the generic parser reads a tag exactly as the Twitch parser does: the same emotes by id, name and position, under the platform's source |
| PlatformBase.GenericAppend | src/platforms/base.rs:117-160 | the emotes of two span lists are the emotes of each, one after the other |
| PlatformBase.ParseGenericEmotes | src/platforms/base.rs:109-162 | the loops over parts and ranges compute the generic emotes (with the corrected bound, see Findings) |
| PlatformBase.ParseGenericRanges | src/platforms/base.rs:129-159 | the inner loop over one part's ranges computes that part's emotes |
| PlatformBase.GenericRangeAsWritten | src/platforms/base.rs:129-159 | one range as written yields at most one emote, or a slice panic (None) |
| PlatformBase.GenericRangeOffByOne | src/platforms/base.rs:137 | the range `0-2` over "ab" passes the written check and slices out of bounds, where the Twitch parser's check skips it |
| PlatformBase.GenericRangeAgrees | src/platforms/base.rs:129-159 | for every range other than one ending at the content's length or reversed, the written check and the corrected one give the same emotes |
| PlatformBase.BadgeItems | src/platforms/base.rs:173-187 | at most one badge per item |
| PlatformBase.GenericBadgesRoundTrip | src/platforms/base.rs:165-190 | a tag written as `id/version,...` from parts without `,` or `/` parses back to exactly those badges, named by their ids, in order |
| PlatformBase.ParseBadgeItem | src/platforms/base.rs:174-186 | an item with exactly one `/` becomes a badge named by its id; any other item gives nothing |
| PlatformBase.ParseGenericBadges | src/platforms/base.rs:165-190 | nothing for an empty tag; otherwise the badges of its `,`-items |
| PlatformBase.ParseBadgeItems | src/platforms/base.rs:173-187 | the loop over the items collects their badges in order |
| PlatformBase.OpenFiltersPass | src/platforms/base.rs:256-308 | filters that set nothing let every message through |
| PlatformBase.PassesFilters | src/platforms/base.rs:256-308 | the verdict of `apply_message_filters` (see ApplyMessageFilters) |
| PlatformBase.FiltersIgnoreNameCase | src/platforms/base.rs:274-287 | the verdict does not depend on the case of the author's name |
| PlatformBase.ApplyMessageFilters | src/platforms/base.rs:256-308 | passes exactly when the length is within the bounds, the lowercased author is not blocked and is allowed when there is an allow-list, no blocked word occurs in any case, and the message is a command when only commands are wanted |
| PlatformBase.BasePlatform.constructor | src/platforms/base.rs:86-106 | disconnected, no channels, a limiter of 20 per second and 100 per minute |
| PlatformBase.BasePlatform.UpdateChannelInfo | src/platforms/base.rs:236-238 | the channel's info is inserted or replaced |
| PlatformBase.BasePlatform.GetChannelInfo | src/platforms/base.rs:241-243 | Some exactly for joined channels, with their info |
| PlatformBase.BasePlatform.IsInChannel | src/platforms/base.rs:246-248 | true exactly when the channel's info is present |
| PlatformBase.BasePlatform.ActiveChannels | src/platforms/base.rs:251-253 | exactly the channels the platform is in |
| PlatformBase.UpdateThenGet | src/platforms/base.rs:236-248 | after an update the channel is present with that info, and every other channel is as before |
| PlatformBase.DetectedSound | src/platforms/base.rs:387-433 | every reported name is a known one with at least one position, and each position is a whole-word occurrence; a name absent from the text is never reported |
| PlatformBase.DetectedAbsent | src/platforms/base.rs:387-433 | a name without whole-word occurrences is not reported |
| PlatformBase.DetectEmotesInText | src/platforms/base.rs:387-433 | the loops over names and occurrences compute the specification's detection |
| Platforms.WordCharsOf | src/platforms/mod.rs:182-186 | keeps only letters, digits and `_`, never lengthening the name |
| Platforms.WordCharsOfClean | src/platforms/mod.rs:182-186 | a name made only of such characters is kept whole |
| Platforms.SanitizeUsername | src/platforms/mod.rs:182-188 | the result is no longer than the name and holds only lower-case letters, digits and `_` |
| Platforms.SanitizedNamesFixed | src/platforms/mod.rs:182-188 | an already clean lower-case name is unchanged |
| Platforms.SanitizeUsernameIdempotent | src/platforms/mod.rs:182-188 | sanitising twice is sanitising once |
| Platforms.WordCharsOfAppend | src/platforms/mod.rs:182-186 | the filter works character by character: it distributes over concatenation |
| Platforms.LeadingRun | src/platforms/mod.rs:192-193 | the length of the longest prefix made of the given character |
| Platforms.SanitizeChannelName | src/platforms/mod.rs:190-195 | no longer than the input and with no upper-case letter |
| Platforms.SanitizedChannelNoHash | src/platforms/mod.rs:190-195 | the result never starts with `#` |
| Platforms.SanitizeChannelStrips | src/platforms/mod.rs:190-195 | `@#c`, `@c` and `#c` all give the lowercased `c` (the unit tests' `#channel` and `@Channel`) |
| Platforms.SanitizeChannelNotIdempotent | src/platforms/mod.rs:190-195 | the `@` run is trimmed before the `#` run, so `#@x` becomes `@x`, and sanitising that again gives `x` |
| Platforms.SanitizeChannelPlain | src/platforms/mod.rs:190-195 | a name not starting with `@` or `#` is only lowercased |
| Platforms.SanitizeChannelFixed | src/platforms/mod.rs:190-195 | such a name already in lower case is unchanged |
| Platforms.SanitizeChannelNoSlash | src/platforms/mod.rs:190-195 | sanitising adds no `/` |
| Platforms.Segment | src/platforms/mod.rs:199-201 | the path segment after the first marker holds no `/` |
| Platforms.ExtractChannelFromUrl | src/platforms/mod.rs:197-229 | a channel holds no `/` and only comes from a Twitch, YouTube or Kick url; a Twitch url always yields one; with neither Twitch nor YouTube markers, a channel is found exactly when the url has the Kick marker |
| Platforms.MarkerStaysLeft | src/platforms/mod.rs:197-229 | appending a `/`-free segment creates no new occurrence of a marker ending in `/` |
| Platforms.SegmentOfTail | src/platforms/mod.rs:197-229 | when the marker first occurs at the end of the prefix, the segment read is exactly the appended one |
| Platforms.TwitchUrlChannel | src/platforms/mod.rs:197-203 | `https://twitch.tv/c` yields the sanitised `c` (the unit test's `streamer`) |
| Platforms.KickPrefixNotTwitch | src/platforms/mod.rs:198 | a Kick url prefix holds no Twitch marker |
| Platforms.KickPrefixNotYouTube | src/platforms/mod.rs:204 | nor a YouTube marker |
| Platforms.KickUrlChannel | src/platforms/mod.rs:221-225 | `https://kick.com/c` yields `c` unchanged (the unit test's `streamer`) |
| Platforms.YouTubeWithoutPathHasNoChannel | src/platforms/mod.rs:204-220 | a YouTube url with none of `/channel/`, `/c/` or `/@` yields nothing |
| Platforms.ValidateMessageContent | src/platforms/mod.rs:231-258 | valid exactly when the length is within the bounds and no blocked word occurs, in any case |
| Platforms.FiltersImplyValidContent | src/platforms/mod.rs:231-258 | a message that passes the platform filters has valid content |
| Platforms.ValidContentPassesOpenAuthorFilters | src/platforms/mod.rs:231-258 | with no author lists and no commands-only rule, valid content is all the filters ask |
| Platforms.EmptyBlockedWordRejects | src/platforms/mod.rs:249-255 | an empty blocked word occurs in every message, so every message is rejected |
| Platforms.PlatformFactory.constructor | src/platforms/mod.rs:22-33 | only `twitch` is registered |
| Platforms.PlatformFactory.RegisterPlatform | src/platforms/mod.rs:35-37 | the name is bound to the creator, replacing any earlier one |
| Platforms.PlatformFactory.CreatePlatform | src/platforms/mod.rs:40-59 | an unregistered name is an `UnsupportedPlatform` error naming it; a registered one gives its creator |
| Platforms.PlatformFactory.SupportedPlatforms | src/platforms/mod.rs:61-63 | exactly the names the factory can create |
| Platforms.FreshFactoryPlatforms | src/platforms/mod.rs:22-33 | a new factory creates Twitch and rejects Kick and YouTube, whose registrations are commented out |
| Platforms.CredentialManager.constructor | src/platforms/mod.rs:127-131 | no credentials |
| Platforms.CredentialManager.StoreCredentials | src/platforms/mod.rs:133-140 | the credentials are stored under the platform, replacing earlier ones, and are read back |
| Platforms.CredentialManager.GetCredentials | src/platforms/mod.rs:142-145 | Some exactly for stored platforms, with their credentials |
| Platforms.CredentialManager.RemoveCredentials | src/platforms/mod.rs:147-150 | true exactly when the platform had credentials; afterwards it has none and nothing else changes |
| Platforms.CredentialManager.ListPlatforms | src/platforms/mod.rs:152-155 | exactly the platforms with credentials |
| Platforms.StoreThenRemove | src/platforms/mod.rs:133-150 | storing then removing reports a removal, leaves the platform without credentials and leaves every other platform as it was |
| Twitch.ValidateCredentials | src/platforms/twitch.rs:573-587 | no credentials is accepted; a name without a token or a token without a name is refused; a pair is accepted exactly when the name is non-empty and the token starts with `oauth:` and is longer than 10 characters |
| Twitch.LoginFor | src/platforms/twitch.rs:291-313 | an absent, empty or placeholder token gives the anonymous `justinfan12345` login without a token; otherwise the token is used with the configured name, or the anonymous name when none is configured |
| Twitch.ValidCredentialsLogIn | src/platforms/twitch.rs:291-313 | valid credentials with a real token log in as that user with that token (also src/platforms/twitch.rs:573-587) |
| Twitch.PlaceholderValidButAnonymous | src/platforms/twitch.rs:291-313 | the placeholder token `oauth:YOUR_OAUTH_TOKEN_HERE` passes validation, yet the connection it leads to is anonymous (also src/platforms/twitch.rs:573-587) |
| Twitch.NoCredentialsAnonymous | src/platforms/twitch.rs:291-313 | no credentials is valid and connects anonymously (also src/platforms/twitch.rs:573-587) |
| Twitch.ConvertTwitchEmote | src/platforms/twitch.rs:58-94 | keeps id, name and range; `emotesv2_` ids are global, all-digit ids subscriber ones, the rest plain Twitch; the CDN url, a 28 by 28 static image and metadata carrying the id |
| Twitch.ConvertTwitchEmotes | src/platforms/twitch.rs:58-94 | one converted emote per IRC emote, in order |
| Twitch.ConvertedAgreesWithParser | src/platforms/twitch.rs:58-94 | with an inclusive IRC range end, an IRC emote covering the same text as a span of the emotes tag converts to exactly the emote the tag parser builds, except that its URL has no size suffix |
| Twitch.ConvertTwitchBadge | src/platforms/twitch.rs:96-111 | a Twitch badge named by its set, with its version and the badge CDN url for both |
| Twitch.ConvertTwitchBadges | src/platforms/twitch.rs:96-111 | one converted badge per IRC badge, in order |
| Twitch.ConvertPrivmsgMessage | src/platforms/twitch.rs:113-158 | an action exactly when the text starts with `/me`, normal otherwise; the ids, channel, sender and text carried over; emotes and badges converted; user, message and room ids kept as custom data |
| Twitch.ClearChatMessage | src/platforms/twitch.rs:178-218 | a highlighted system message in red under the generated id, with the text of the ban, timeout or clear |
| Twitch.UserNoticeMessage | src/platforms/twitch.rs:219-259 | a highlighted subscription notice in green, authored by "system", recording the notice type |
| Twitch.NoticesAreSystemAuthored | src/platforms/twitch.rs:160-259 | notices are authored by "system" and never share a message type with a converted chat line |
| Twitch.TwitchPlatform.constructor | src/platforms/twitch.rs:45-56 | a disconnected platform named `twitch` with no channels and no client |
| Twitch.TwitchPlatform.Connect | src/platforms/twitch.rs:291-324 | a client with the login of the credentials, and the platform marked connected |
| Twitch.TwitchPlatform.JoinChannel | src/platforms/twitch.rs:326-353 | without a client a connection error and no change; a failed join its error and no change; otherwise the sanitised channel is recorded with a fresh entry |
| Twitch.TwitchPlatform.LeaveChannel | src/platforms/twitch.rs:355-370 | without a client a connection error; otherwise the sanitised channel is forgotten and nothing else changes |
| Twitch.TwitchPlatform.Disconnect | src/platforms/twitch.rs:400-406 | no client, not connected, no channels |
| Twitch.TwitchPlatform.HandleServerMessage | src/platforms/twitch.rs:160-284 | a chat line is converted and counts towards its channel when joined; clear-chat and user notices become system messages; a room state records its channel as live; pings, pongs and anything else are dropped; only a chat line or a room state changes the channels |
| Twitch.JoinThenLeave | src/platforms/twitch.rs:326-370 | joining then leaving one channel, under any two spellings the sanitiser folds together, leaves the platform out of it |
| Kick.ConvertBadge | src/platforms/kick.rs:461-473 | the badge type as id, the text as name and title, no url, Kick as source, and the count written in decimal as version (empty without a count) |
| Kick.ConvertBadges | src/platforms/kick.rs:461-473 | one badge per identity badge, in order |
| Kick.BadgeVersionRoundTrip | src/platforms/kick.rs:467 | the version reads back as the badge's count |
| Kick.KickMessageOf | src/platforms/kick.rs:460-504 | a normal Kick message with the sender's username, slug and colour, the content, no emotes and the converted badges; an action exactly when the content starts with `/me ` and a `/me` message exactly when it starts with `/me` |
| Kick.KickActionNarrowerThanMe | src/platforms/kick.rs:495-498 | every action is a `/me` message, and the bare `/me` is a `/me` message that is not an action |
| Kick.KickAndTwitchDisagreeOnAction | src/platforms/kick.rs:495-498 | `/mean` is an action on Twitch but not on Kick, though Kick flags it as a `/me` message (also src/platforms/twitch.rs:113-158) |
| Kick.FallbackIds | src/platforms/kick.rs:266-271 | the fallback table gives one id for both channel and chatroom: 1861340 for `xqc`, 1853871 for everything else |
| Kick.ChannelIds | src/platforms/kick.rs:188-273 | a channel object from the first endpoint decides: its id, and its chatroom's id or else its own; with no usable answer from either endpoint, the fallback table |
| Kick.GetChannelInfo | src/platforms/kick.rs:188-273 | the loop over the two endpoints settles on the ids `ChannelIds` gives, and never fails |
| Kick.ChatroomReplyOnlyFromChatroomEndpoint | src/platforms/kick.rs:239-252 | a bare chatroom object counts only from the chatroom endpoint |
| Kick.KickPlatform.constructor | src/platforms/kick.rs:129-141 | a disconnected platform named `kick` with no channels, no WebSocket, no ids and no tokens |
| Kick.KickPlatform.SetAuthTokens | src/platforms/kick.rs:144-149 | the three tokens are set and nothing else changes |
| Kick.KickPlatform.ClearAuthTokens | src/platforms/kick.rs:151-155 | the three tokens are cleared and nothing else changes |
| Kick.KickPlatform.Connect | src/platforms/kick.rs:158-186 | a failed handshake is a WebSocket error and changes nothing; otherwise the socket is open and the platform connected, whether or not the establishment message arrives (also src/platforms/kick.rs:511-515); the tokens and the chatroom and channel ids never change |
| Kick.KickPlatform.JoinChannel | src/platforms/kick.rs:275-357 | connects first when needed; succeeds exactly when connected and the subscription is sent (or there is no socket to send it on); once connected the looked-up ids are stored, even when the subscription then fails; on success the channel is recorded under its name as given; on failure the channels are unchanged, and a failed connect leaves the platform disconnected with its socket and ids as they were; the tokens never change (also src/platforms/kick.rs:517-537) |
| Kick.KickPlatform.LeaveChannel | src/platforms/kick.rs:539-542 | always succeeds and forgets exactly that channel |
| Kick.KickPlatform.Disconnect | src/platforms/kick.rs:750-759 | a failed close of an open socket is an error and changes nothing; otherwise the socket is closed and the platform disconnected; channels, tokens and ids are kept |
| Kick.KickPlatform.ConvertKickMessage | src/platforms/kick.rs:460-504 | the message of the data under one of the joined channels, or under "" when none is joined |

## Left out

- Network, file and socket I/O: HTTP requests, the IRC client, the Kick WebSocket, reading and writing the configuration file and the renderer's disk cache. Each answer the code reacts to (a provider's reply, a handshake, a join, a close, a send) is a parameter of the member that reacts to it.
- Clocks and randomness: `Instant` and `SystemTime` become a `now: nat` in seconds, and generated message ids become an `id` parameter. `convert_timestamp` is the identity, as in the source. `generate_message_id` is not modelled.
- Unicode: strings are ASCII. `to_lowercase`, `is_alphanumeric`, `split_whitespace` and `\d`/`\s` match only ASCII characters, so byte length and character count agree.
- Regular expressions: the transformer's `regex_replace` is a parameter (`Transformer.RegexReplace`) that either returns the rewritten text or an error. `get_or_compile_regex` and its cache are not modelled.
- Floating point: the cache hit rate, the renderer's `set_scaling_factor`, and emote scaling by a non-integral factor are not modelled. `Transformer.ScaleEmotes` scales by a whole factor and saturates at the `u32` maximum.
- The renderer's `render_emote`, `render_emotes_batch`, `fetch_emote_image`, `cache_emote`, `clean_cache` and `get_cache_stats` are disk and network work and are not modelled. Only the pure steps they call are modelled: URL resolution, format sniffing, size checks and clamping.
- EmoteCache.EmoteCache.Import: takes the already-decoded key-to-emote map. The JSON decoding step of src/emotes/cache.rs:199-200 is not modelled, so neither is its error, which returns `Err` and leaves the cache unchanged.
- The display opacity (`DisplayConfig.opacity`, an `f32`, src/config.rs:151) is floating point and is left out of `Config.DisplayConfig`.
- EmoteParser.FindEmotePositions: requires a non-empty emote name, and so do `EmoteSystem.NamedData`, `EmoteSystem.NamedKnown` and the `PlatformBase.Detected` lemmas. With an empty name, `emote_name.len() - 1` in src/emotes/parser.rs:169 underflows. Its copy in `detect_emotes_in_text` (src/platforms/base.rs:399-424) computes `actual_end - 1`, which underflows at offset 0, and it never advances `start`. Neither panic is represented.
- `EmoteSystem.System.ParseMessageEmotes`: the cache's new hit and miss counters, and the access times and counts of the entries it hits, are not stated. Which entries survive is stated (`EmoteSystem.LookupsApplied`): looked-up expired entries are removed, all others are kept.
- `PlatformBase.RateLimiter.RecordMessage`: counters are unbounded integers. The `u32` overflow after 2^32 messages in one window is not modelled.
- `EmoteParser.ParseTwitchEmotes`, `PlatformBase.ParseGenericEmotes`, and through them `Providers.ParseEmotes` and `EmoteParser.Parser.ParseAllEmotes`: all require that no range in the tag is reversed (start more than one past end). The source panics on the slice for such a range, and the model does not represent the panic.
- EmoteCache.EmoteCache.SetTtl: requires `ttl_hours * 3600` to fit in a `u64`. src/emotes/cache.rs:242 multiplies without saturating, which panics in a debug build and wraps in a release build; neither outcome is modelled.
- `EmoteParser.ExtractPlainText`, `EmoteParser.ReplacePositions`: the panic of `replace_range` on a reversed range inside the text is the result `None`, not a process abort.
- `EmoteParser.SortByStart`: proved to be a permutation in descending start order. The stability of the source's sort is not stated.
- `Kick.KickPlatform.ConvertKickMessage`: the source takes the first key of a `HashMap`. The model picks any joined channel and states only that it is one.
- `DataMapper.MapEmotes`, `DataMapper.MapBadges`: the source's versions cannot fail and are modelled as total.
- Message-transform plug-ins: only the two implementations in the source are modelled, `ContentFilter` and `UserLevelPrefix`. Other implementations are arbitrary code.
- The non-ASCII prefixes of `UserLevelPrefix` are opaque constants.
- `BasePlatform`: the message queue, stored credentials and settings, `create_base_message` and `handle_reconnect` are not modelled. Nothing in the modelled core reads them.
- `normalize_emotes` only copies fields and is not modelled.
- The `next_message` loops of Twitch and Kick (channel polling) and Kick's `wait_for_connection_established_static` and `wait_for_subscription_confirmation_static` (reading socket frames with timeouts) are not modelled. A subscription that is sent counts as joined.
- Kick's `join_chatroom` falls back when `get_channel_info` fails (src/platforms/kick.rs:285-297). That branch is dead, because `get_channel_info` never returns an error, so `Kick.GetChannelInfo` has no error path.
- `PlatformCreator::create` builds a platform object, and that is left out. The factory is modelled up to the creator it selects. `list_supported_platforms` is modelled as a set, because `HashMap` order is unspecified.
- YouTube is not modelled. Its platform file is not part of this model, and the factory does not register it.
- Two unit tests disagree with the code, and the model follows the code:
  - `test_anonymize_username` (src/mapping/message_transformer.rs:628) expects `u******` for `username`, but the code keeps the length and gives `u*******` (`Transformer.AnonymizeExamples`).
  - `test_parse_twitch_emotes` (src/emotes/parser.rs:331-339) expects the range `12-19` to name `PogChamp`, but the code names an emote by the slice it covers, which is `world Po`.

## Findings

| source | as written | input that shows it | evidently intended | confidence | as-written member | corrected member |
|---|---|---|---|---|---|---|
| src/platforms/base.rs:137 | `parse_generic_emotes` accepts a range when `end <= content.len()`, then slices `content[start..=end]` | content `ab`, emote tag `e:0-2`: the check passes and the slice panics out of bounds | `end < content.len()`, as the Twitch parser checks (src/emotes/parser.rs:78), so the range is skipped | not executed | PlatformBase.GenericRangeOffByOne | PlatformBase.ParseGenericEmotes |
