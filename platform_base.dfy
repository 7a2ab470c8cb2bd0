/** The shared platform layer of `src/platforms/base.rs`: the rate limiter, the
    generic emote and badge tag parsers, the message filters, the channel table
    of a platform, and the whole-word emote detector of `emote_utils`.
    Instants are whole seconds on an explicit clock. */
module PlatformBase {
  import opened Wrappers
  import opened Text
  import opened Connection
  import Config
  import EmoteParser

  // ---------------------------------------------------------------------------
  // Rate limiter
  // ---------------------------------------------------------------------------

  /** The limiter's counters and the instants they were last reset. */
  datatype LimiterState = LimiterState(
    maxPerSecond: nat, maxPerMinute: nat,
    currentSecond: nat, currentMinute: nat,
    lastSecondReset: nat, lastMinuteReset: nat)

  /** `Instant::duration_since(..).as_secs()`, which is zero for an earlier
      instant. */
  function Elapsed(now: nat, since: nat): nat { if now >= since then now - since else 0 }

  /** The resets `can_send_message` performs before it answers. */
  function Refreshed(st: LimiterState, now: nat): (r: LimiterState)
    ensures r.maxPerSecond == st.maxPerSecond && r.maxPerMinute == st.maxPerMinute
    ensures Elapsed(now, st.lastSecondReset) >= 1 ==> r.currentSecond == 0 && r.lastSecondReset == now
    ensures Elapsed(now, st.lastSecondReset) < 1 ==> r.currentSecond == st.currentSecond && r.lastSecondReset == st.lastSecondReset
    ensures Elapsed(now, st.lastMinuteReset) >= 60 ==> r.currentMinute == 0 && r.lastMinuteReset == now
    ensures Elapsed(now, st.lastMinuteReset) < 60 ==> r.currentMinute == st.currentMinute && r.lastMinuteReset == st.lastMinuteReset
  {
    var a := if Elapsed(now, st.lastSecondReset) >= 1 then st.(currentSecond := 0, lastSecondReset := now) else st;
    if Elapsed(now, a.lastMinuteReset) >= 60 then a.(currentMinute := 0, lastMinuteReset := now) else a
  }

  predicate UnderLimits(st: LimiterState) {
    st.currentSecond < st.maxPerSecond && st.currentMinute < st.maxPerMinute
  }

  /** `record_message` applied `k` times. */
  function Recorded(st: LimiterState, k: nat): (r: LimiterState)
    ensures r == st.(currentSecond := st.currentSecond + k, currentMinute := st.currentMinute + k)
  {
    if k == 0 then st else Recorded(st, k - 1).(currentSecond := st.currentSecond + k, currentMinute := st.currentMinute + k)
  }

  /** Within one second no more than `max_messages_per_second` messages, and
      within one minute no more than `max_messages_per_minute`, pass: after
      `k` recordings at the same instant the limiter still answers yes only if
      `k` is below both limits. */
  lemma BurstBounded(st: LimiterState, now: nat, k: nat)
    requires UnderLimits(Refreshed(Recorded(Refreshed(st, now), k), now))
    ensures k < st.maxPerSecond && k < st.maxPerMinute
  {
    var r := Refreshed(st, now);
    assert Refreshed(Recorded(r, k), now) == Recorded(r, k);
  }

  /** A limiter whose per-second limit is zero never lets a message through. */
  lemma ZeroLimitBlocks(st: LimiterState, now: nat)
    requires st.maxPerSecond == 0
    ensures !UnderLimits(Refreshed(st, now))
  {
  }

  /** `RateLimiter`: counters of messages sent in the current second and
      minute. */
  class RateLimiter {
    var maxPerSecond: nat
    var maxPerMinute: nat
    var currentSecond: nat
    var currentMinute: nat
    var lastSecondReset: nat
    var lastMinuteReset: nat

    function State(): LimiterState
      reads this
    {
      LimiterState(maxPerSecond, maxPerMinute, currentSecond, currentMinute, lastSecondReset, lastMinuteReset)
    }

    /** `RateLimiter::new`: both counters zero, both reset instants now. */
    constructor (maxPerSecond: nat, maxPerMinute: nat, now: nat)
      ensures State() == LimiterState(maxPerSecond, maxPerMinute, 0, 0, now, now)
    {
      this.maxPerSecond := maxPerSecond;
      this.maxPerMinute := maxPerMinute;
      currentSecond := 0;
      currentMinute := 0;
      lastSecondReset := now;
      lastMinuteReset := now;
    }

    /** `can_send_message`: resets what has expired, then compares both
        counters with their limits; it never counts a message itself. */
    method CanSendMessage(now: nat) returns (ok: bool)
      modifies this
      ensures State() == Refreshed(old(State()), now)
      ensures ok <==> UnderLimits(State())
    {
      if Elapsed(now, lastSecondReset) >= 1 {
        currentSecond := 0;
        lastSecondReset := now;
      }
      if Elapsed(now, lastMinuteReset) >= 60 {
        currentMinute := 0;
        lastMinuteReset := now;
      }
      ok := currentSecond < maxPerSecond && currentMinute < maxPerMinute;
    }

    /** `record_message`: one more message in both windows. */
    method RecordMessage()
      modifies this
      ensures State() == Recorded(old(State()), 1)
    {
      currentSecond := currentSecond + 1;
      currentMinute := currentMinute + 1;
    }
  }

  // ---------------------------------------------------------------------------
  // Generic emote tags
  // ---------------------------------------------------------------------------

  /** `get_default_emote_source`: the emote source named after the platform. */
  function DefaultEmoteSource(t: Config.PlatformType): (s: EmoteSource)
    ensures s in {Twitch, YouTube, Kick, Trovo, Facebook}
  {
    match t
    case Twitch => EmoteSource.Twitch
    case YouTube => EmoteSource.YouTube
    case Kick => EmoteSource.Kick
    case Trovo => EmoteSource.Trovo
    case Facebook => EmoteSource.Facebook
  }

  /** Distinct platforms give distinct sources. */
  lemma DefaultEmoteSourceInjective(a: Config.PlatformType, b: Config.PlatformType)
    ensures DefaultEmoteSource(a) == DefaultEmoteSource(b) ==> a == b
  {
  }

  /** The emote a generic tag range stands for: the text it covers, under the
      platform's source, with no URL, size or emote set. */
  function GenericEmote(content: string, s: EmoteParser.Span, source: EmoteSource): Emote
    requires s.start <= s.end + 1 <= |content|
  {
    Emote(s.id, content[s.start..s.end + 1], source, [TextPosition(s.start, s.end)], None, false, None, None,
      EmoteMetadata(false, false, None, None))
  }

  function GenericEmotesOf(content: string, spans: seq<EmoteParser.Span>, source: EmoteSource): (r: seq<Emote>)
    requires EmoteParser.SlicesAt(content, spans)
    ensures |r| == |spans|
    ensures forall i :: 0 <= i < |spans| ==> r[i] == GenericEmote(content, spans[i], source)
  {
    if spans == [] then []
    else GenericEmotesOf(content, spans[..|spans| - 1], source) + [GenericEmote(content, spans[|spans| - 1], source)]
  }

  /** `parse_generic_emotes` with the bounds check corrected to `end < len`:
      the same ranges the Twitch tag parser accepts, each as a generic emote. */
  function GenericEmotes(content: string, data: string, source: EmoteSource): seq<Emote>
    requires EmoteParser.NoReversedRange(content, data)
  {
    GenericEmotesOf(content, EmoteParser.TwitchSpans(content, data), source)
  }

  /** The generic parser reads a tag exactly as the Twitch parser does; only
      the source, URL, size and emote set of each emote differ. */
  lemma GenericIsTwitchRelabelled(content: string, data: string, source: EmoteSource)
    requires EmoteParser.NoReversedRange(content, data)
    ensures var g, t := GenericEmotes(content, data, source), EmoteParser.TwitchEmotes(content, data);
      |g| == |t| && forall i :: 0 <= i < |g| ==>
        g[i] == t[i].(source := source, url := None, width := None, height := None,
                      metadata := EmoteMetadata(false, false, None, None))
  {
  }

  lemma {:induction false} GenericAppend(content: string, a: seq<EmoteParser.Span>, b: seq<EmoteParser.Span>, source: EmoteSource)
    requires EmoteParser.SlicesAt(content, a) && EmoteParser.SlicesAt(content, b)
    ensures EmoteParser.SlicesAt(content, a + b)
    ensures GenericEmotesOf(content, a + b, source) == GenericEmotesOf(content, a, source) + GenericEmotesOf(content, b, source)
  {
    assert EmoteParser.SlicesAt(content, a + b) by {
      forall s | s in a + b ensures s.start <= s.end + 1 <= |content| {
        if s in a {} else { assert s in b; }
      }
    }
    var l := GenericEmotesOf(content, a + b, source);
    var ea, eb := GenericEmotesOf(content, a, source), GenericEmotesOf(content, b, source);
    var r := ea + eb;
    assert |l| == |r|;
    forall i | 0 <= i < |l| ensures l[i] == r[i] {
      if i < |a| {
        assert (a + b)[i] == a[i] && r[i] == ea[i];
      } else {
        assert (a + b)[i] == b[i - |a|] && r[i] == eb[i - |a|];
      }
    }
  }

  /** `parse_generic_emotes`, with the bounds check of the Twitch parser (see
      `GenericRangeAsWritten` for the check as written). */
  method ParseGenericEmotes(content: string, data: string, source: EmoteSource) returns (emotes: seq<Emote>)
    requires EmoteParser.NoReversedRange(content, data)
    ensures emotes == GenericEmotes(content, data, source)
  {
    emotes := [];
    if data == [] {
      return;
    }
    var segments := Split(data, '/');
    for i := 0 to |segments|
      invariant EmoteParser.SlicesAt(content, EmoteParser.SegmentsSpans(segments[..i], |content|))
      invariant emotes == GenericEmotesOf(content, EmoteParser.SegmentsSpans(segments[..i], |content|), source)
    {
      GenericSegmentStep(content, data, segments, i, source);
      var more := ParseGenericSegment(content, segments[i], source);
      emotes := emotes + more;
    }
    assert segments[..|segments|] == segments;
  }

  /** One `/`-segment of a generic tag: its ranges when it has exactly one `:`. */
  method ParseGenericSegment(content: string, segment: string, source: EmoteSource) returns (more: seq<Emote>)
    requires EmoteParser.SlicesAt(content, EmoteParser.SegmentSpans(segment, |content|))
    ensures more == GenericEmotesOf(content, EmoteParser.SegmentSpans(segment, |content|), source)
  {
    var parts := Split(segment, ':');
    if |parts| != 2 {
      return [];
    }
    more := ParseGenericRanges(content, parts[0], Split(parts[1], ','), source);
  }

  /** Segment `i` contributes its emotes after those of the earlier segments. */
  lemma GenericSegmentStep(content: string, data: string, segments: seq<string>, i: nat, source: EmoteSource)
    requires data != [] && segments == Split(data, '/') && i < |segments|
    requires EmoteParser.NoReversedRange(content, data)
    requires EmoteParser.SlicesAt(content, EmoteParser.SegmentsSpans(segments[..i], |content|))
    ensures EmoteParser.SlicesAt(content, EmoteParser.SegmentSpans(segments[i], |content|))
    ensures EmoteParser.SlicesAt(content, EmoteParser.SegmentsSpans(segments[..i + 1], |content|))
    ensures GenericEmotesOf(content, EmoteParser.SegmentsSpans(segments[..i + 1], |content|), source)
      == GenericEmotesOf(content, EmoteParser.SegmentsSpans(segments[..i], |content|), source)
         + GenericEmotesOf(content, EmoteParser.SegmentSpans(segments[i], |content|), source)
  {
    EmoteParser.SegmentInTag(segments, i, |content|);
    GenericAppend(content, EmoteParser.SegmentsSpans(segments[..i], |content|),
      EmoteParser.SegmentSpans(segments[i], |content|), source);
  }

  /** The inner loop of `parse_generic_emotes`, over the ranges of one part. */
  method ParseGenericRanges(content: string, id: string, ranges: seq<string>, source: EmoteSource)
    returns (emotes: seq<Emote>)
    requires EmoteParser.SlicesAt(content, EmoteParser.RangeSpans(id, ranges, |content|))
    ensures emotes == GenericEmotesOf(content, EmoteParser.RangeSpans(id, ranges, |content|), source)
  {
    emotes := [];
    for j := 0 to |ranges|
      invariant EmoteParser.SlicesAt(content, EmoteParser.RangeSpans(id, ranges[..j], |content|))
      invariant emotes == GenericEmotesOf(content, EmoteParser.RangeSpans(id, ranges[..j], |content|), source)
    {
      var span := EmoteParser.ParseRange(id, ranges[j], |content|);
      if span.Some? {
        GenericRangeTaken(content, id, ranges, j, span.value, source);
        emotes := emotes + [GenericEmote(content, span.value, source)];
      } else {
        GenericRangeSkipped(content, id, ranges, j, source);
      }
    }
    assert ranges[..|ranges|] == ranges;
  }

  lemma GenericRangeTaken(content: string, id: string, ranges: seq<string>, j: nat, s: EmoteParser.Span, source: EmoteSource)
    requires j < |ranges| && EmoteParser.RangeSpan(id, ranges[j], |content|) == [s]
    requires EmoteParser.SlicesAt(content, EmoteParser.RangeSpans(id, ranges, |content|))
    requires EmoteParser.SlicesAt(content, EmoteParser.RangeSpans(id, ranges[..j], |content|))
    ensures s.start <= s.end + 1 <= |content|
    ensures EmoteParser.SlicesAt(content, EmoteParser.RangeSpans(id, ranges[..j + 1], |content|))
    ensures GenericEmotesOf(content, EmoteParser.RangeSpans(id, ranges[..j + 1], |content|), source)
         == GenericEmotesOf(content, EmoteParser.RangeSpans(id, ranges[..j], |content|), source) + [GenericEmote(content, s, source)]
  {
    EmoteParser.RangeStep(id, ranges, j, |content|);
    assert s in EmoteParser.RangeSpans(id, ranges, |content|);
    GenericAppend(content, EmoteParser.RangeSpans(id, ranges[..j], |content|), [s], source);
  }

  lemma GenericRangeSkipped(content: string, id: string, ranges: seq<string>, j: nat, source: EmoteSource)
    requires j < |ranges| && EmoteParser.RangeSpan(id, ranges[j], |content|) == []
    requires EmoteParser.SlicesAt(content, EmoteParser.RangeSpans(id, ranges[..j], |content|))
    ensures EmoteParser.SlicesAt(content, EmoteParser.RangeSpans(id, ranges[..j + 1], |content|))
    ensures GenericEmotesOf(content, EmoteParser.RangeSpans(id, ranges[..j + 1], |content|), source)
         == GenericEmotesOf(content, EmoteParser.RangeSpans(id, ranges[..j], |content|), source)
  {
    EmoteParser.RangeStep(id, ranges, j, |content|);
    assert EmoteParser.RangeSpans(id, ranges[..j + 1], |content|) == EmoteParser.RangeSpans(id, ranges[..j], |content|);
  }

  /** One range of `parse_generic_emotes` exactly as written: the bounds check
      lets `end == len` through, and the slice `content[start..=end]` then
      panics, as it does when `start > end + 1`. `None` stands for the panic. */
  function GenericRangeAsWritten(id: string, range: string, content: string, source: EmoteSource): (r: Option<seq<Emote>>)
    ensures r.Some? ==> |r.value| <= 1
  {
    var bounds := Split(range, '-');
    if |bounds| != 2 then Some([])
    else
      var start, end := ParseUsize(bounds[0]), ParseUsize(bounds[1]);
      if start.Some? && end.Some? && start.value < |content| && end.value <= |content| then
        if start.value <= end.value + 1 <= |content|
        then Some([GenericEmote(content, EmoteParser.Span(id, start.value, end.value), source)])
        else None
      else Some([])
  }

  /** Off by one: the range `0-2` over the two-character content "ab" passes the
      check as written and panics, where the Twitch parser's check skips it. */
  lemma GenericRangeOffByOne(source: EmoteSource)
    ensures GenericRangeAsWritten("e", "0-2", "ab", source).None?
    ensures EmoteParser.RangeSpan("e", "0-2", 2) == []
  {
    assert Join(["0", "2"], '-') == "0-2";
    SplitOfJoin(["0", "2"], '-');
    assert ParseUsize("0") == Some(0) && ParseUsize("2") == Some(2);
  }

  /** Away from `end == len` (and a reversed range, which panics either way),
      the check as written and the corrected one agree. */
  lemma GenericRangeAgrees(id: string, range: string, content: string, source: EmoteSource)
    requires var b := Split(range, '-'); |b| == 2 ==>
      var s, e := ParseUsize(b[0]), ParseUsize(b[1]);
      s.Some? && e.Some? ==> e.value != |content| && s.value <= e.value + 1
    ensures EmoteParser.SlicesAt(content, EmoteParser.RangeSpan(id, range, |content|))
    ensures GenericRangeAsWritten(id, range, content, source)
      == Some(GenericEmotesOf(content, EmoteParser.RangeSpan(id, range, |content|), source))
  {
    var bounds := Split(range, '-');
    var spans := EmoteParser.RangeSpan(id, range, |content|);
    if |bounds| == 2 {
      var start, end := ParseUsize(bounds[0]), ParseUsize(bounds[1]);
      if start.Some? && end.Some? && start.value < |content| && end.value < |content| {
        var span := EmoteParser.Span(id, start.value, end.value);
        assert spans == [span];
        assert start.value <= end.value + 1 <= |content|;
        assert GenericRangeAsWritten(id, range, content, source) == Some([GenericEmote(content, span, source)]);
        GenericEmotesOfOne(content, span, source);
      } else {
        assert spans == [];
        assert GenericRangeAsWritten(id, range, content, source) == Some([]);
      }
    } else {
      assert spans == [];
    }
  }

  lemma GenericEmotesOfOne(content: string, span: EmoteParser.Span, source: EmoteSource)
    requires span.start <= span.end + 1 <= |content|
    ensures EmoteParser.SlicesAt(content, [span])
    ensures GenericEmotesOf(content, [span], source) == [GenericEmote(content, span, source)]
  {
  }

  // ---------------------------------------------------------------------------
  // Generic badge tags
  // ---------------------------------------------------------------------------

  /** What one `,`-item of a badge tag contributes: a badge when it has exactly
      two `/`-pieces, nothing otherwise. */
  function BadgeItem(item: string, source: EmoteSource): seq<Badge> {
    var parts := Split(item, '/');
    if |parts| != 2 then [] else [Badge(parts[0], parts[0], parts[1], None, None, source)]
  }

  function BadgeItems(items: seq<string>, source: EmoteSource): (r: seq<Badge>)
    ensures |r| <= |items|
  {
    if items == [] then [] else BadgeItem(items[0], source) + BadgeItems(items[1..], source)
  }

  /** What `parse_generic_badges` returns. */
  function GenericBadges(data: string, source: EmoteSource): seq<Badge> {
    if data == [] then [] else BadgeItems(Split(data, ','), source)
  }

  /** A badge tag written as `id/version,...` parses back to those badges,
      provided no id or version holds a `,` or `/` and there is at least one
      pair (an empty tag has no badges). */
  lemma {:induction false} GenericBadgesRoundTrip(pairs: seq<(string, string)>, source: EmoteSource)
    requires |pairs| >= 1
    requires forall i :: 0 <= i < |pairs| ==> ',' !in pairs[i].0 && '/' !in pairs[i].0 && ',' !in pairs[i].1 && '/' !in pairs[i].1
    ensures var r := GenericBadges(Join(PairTexts(pairs), ','), source);
      |r| == |pairs| && forall i :: 0 <= i < |pairs| ==> r[i] == Badge(pairs[i].0, pairs[i].0, pairs[i].1, None, None, source)
  {
    var texts := PairTexts(pairs);
    PairTextsFree(pairs);
    SplitOfJoin(texts, ',');
    assert Join(texts, ',') != [] by { JoinLength(texts, ','); assert |texts[0]| > 0; }
    BadgeItemsOfPairs(pairs, source);
  }

  function PairText(p: (string, string)): string { p.0 + "/" + p.1 }

  function PairTexts(pairs: seq<(string, string)>): (r: seq<string>)
    ensures |r| == |pairs| && forall i :: 0 <= i < |pairs| ==> r[i] == PairText(pairs[i])
  {
    if pairs == [] then [] else [PairText(pairs[0])] + PairTexts(pairs[1..])
  }

  lemma PairTextsFree(pairs: seq<(string, string)>)
    requires forall i :: 0 <= i < |pairs| ==> ',' !in pairs[i].0 && ',' !in pairs[i].1
    ensures forall i :: 0 <= i < |pairs| ==> ',' !in PairTexts(pairs)[i]
  {
    forall i | 0 <= i < |pairs| ensures ',' !in PairTexts(pairs)[i] {
      var p := pairs[i];
      assert PairText(p) == p.0 + ['/'] + p.1;
    }
  }

  lemma JoinLength(parts: seq<string>, sep: char)
    requires |parts| >= 1
    ensures |Join(parts, sep)| >= |parts[0]|
  {
  }

  lemma PairItem(p: (string, string), source: EmoteSource)
    requires '/' !in p.0 && '/' !in p.1
    ensures BadgeItem(PairText(p), source) == [Badge(p.0, p.0, p.1, None, None, source)]
  {
    assert Join([p.0, p.1], '/') == PairText(p);
    SplitOfJoin([p.0, p.1], '/');
  }

  lemma {:induction false} BadgeItemsOfPairs(pairs: seq<(string, string)>, source: EmoteSource)
    requires forall i :: 0 <= i < |pairs| ==> '/' !in pairs[i].0 && '/' !in pairs[i].1
    ensures var r := BadgeItems(PairTexts(pairs), source);
      |r| == |pairs| && forall i :: 0 <= i < |pairs| ==> r[i] == Badge(pairs[i].0, pairs[i].0, pairs[i].1, None, None, source)
    decreases |pairs|
  {
    if pairs != [] {
      var texts := PairTexts(pairs);
      PairItem(pairs[0], source);
      BadgeItemsOfPairs(pairs[1..], source);
      assert texts[1..] == PairTexts(pairs[1..]);
      var b := Badge(pairs[0].0, pairs[0].0, pairs[0].1, None, None, source);
      var t := BadgeItems(PairTexts(pairs[1..]), source);
      var r := BadgeItems(texts, source);
      assert r == [b] + t;
      forall i | 0 <= i < |pairs| ensures r[i] == Badge(pairs[i].0, pairs[i].0, pairs[i].1, None, None, source) {
        if i > 0 {
          assert r[i] == t[i - 1] && pairs[1..][i - 1] == pairs[i];
        }
      }
    }
  }

  /** One turn of the loop over the items keeps the collected badges a prefix
      of the answer. */
  lemma BadgeStep(items: seq<string>, i: nat, badges: seq<Badge>, item: seq<Badge>, source: EmoteSource)
    requires i < |items| && item == BadgeItem(items[i], source)
    requires badges + BadgeItems(items[i..], source) == BadgeItems(items, source)
    ensures (badges + item) + BadgeItems(items[i + 1..], source) == BadgeItems(items, source)
  {
    BadgeUnfold(items, i, source);
    AppendAssoc(badges, item, BadgeItems(items[i + 1..], source));
  }

  lemma BadgeUnfold(items: seq<string>, i: nat, source: EmoteSource)
    requires i < |items|
    ensures BadgeItems(items[i..], source) == BadgeItem(items[i], source) + BadgeItems(items[i + 1..], source)
  {
    assert items[i..][0] == items[i] && items[i..][1..] == items[i + 1..];
  }

  lemma AppendAssoc<T>(a: seq<T>, b: seq<T>, c: seq<T>)
    ensures (a + b) + c == a + (b + c)
  {
  }

  /** The body of the loop of `parse_generic_badges`: an item with exactly two
      `/`-pieces is a badge, any other item is skipped. */
  method ParseBadgeItem(item: string, source: EmoteSource) returns (badges: seq<Badge>)
    ensures badges == BadgeItem(item, source)
  {
    var parts := Split(item, '/');
    if |parts| != 2 {
      return [];
    }
    return [Badge(parts[0], parts[0], parts[1], None, None, source)];
  }

  /** `parse_generic_badges`. */
  method ParseGenericBadges(data: string, source: EmoteSource) returns (badges: seq<Badge>)
    ensures badges == GenericBadges(data, source)
  {
    if data == [] {
      return [];
    }
    badges := ParseBadgeItems(Split(data, ','), source);
  }

  /** The loop of `parse_generic_badges` over the `,`-items. */
  method ParseBadgeItems(items: seq<string>, source: EmoteSource) returns (badges: seq<Badge>)
    ensures badges == BadgeItems(items, source)
  {
    badges := [];
    for i := 0 to |items|
      invariant badges + BadgeItems(items[i..], source) == BadgeItems(items, source)
    {
      var item := ParseBadgeItem(items[i], source);
      BadgeStep(items, i, badges, item, source);
      badges := badges + item;
    }
    assert items[|items|..] == [];
  }

  // ---------------------------------------------------------------------------
  // Message filters
  // ---------------------------------------------------------------------------

  predicate Blocks(content: string, words: seq<string>) {
    exists k :: 0 <= k < |words| && ContainsIgnoreCase(content, words[k])
  }

  predicate IsCommand(content: string) { StartsWith(content, "!") || StartsWith(content, "/") }

  /** The verdict of `apply_message_filters`: a message passes unless it is too
      short or too long, its lowercased author is blocked or missing from a
      non-empty allow-list, it holds a blocked word in any case, or only
      commands are wanted and it is not one. */
  predicate PassesFilters(m: ChatMessage, f: Config.MessageFilters) {
    && (f.minMessageLength.None? || |m.content| >= f.minMessageLength.value)
    && (f.maxMessageLength.None? || |m.content| <= f.maxMessageLength.value)
    && Lower(m.username) !in f.blockedUsers
    && (f.allowedUsers == [] || Lower(m.username) in f.allowedUsers)
    && !Blocks(m.content, f.blockedWords)
    && (!f.commandsOnly || IsCommand(m.content))
  }

  /** Filters that set nothing let every message through. */
  lemma OpenFiltersPass(m: ChatMessage)
    ensures PassesFilters(m, Config.MessageFilters(None, None, [], [], [], false, false, false))
  {
  }

  /** Filtering does not depend on the case of the author's name. */
  lemma FiltersIgnoreNameCase(m: ChatMessage, f: Config.MessageFilters)
    ensures PassesFilters(m, f) <==> PassesFilters(m.(username := Lower(m.username)), f)
  {
    LowerIdempotent(m.username);
  }

  /** `apply_message_filters`; the message is only read. */
  method ApplyMessageFilters(m: ChatMessage, f: Config.MessageFilters) returns (pass: bool)
    ensures pass <==> PassesFilters(m, f)
  {
    if f.minMessageLength.Some? && |m.content| < f.minMessageLength.value {
      return false;
    }
    if f.maxMessageLength.Some? && |m.content| > f.maxMessageLength.value {
      return false;
    }
    if Lower(m.username) in f.blockedUsers {
      return false;
    }
    if f.allowedUsers != [] && Lower(m.username) !in f.allowedUsers {
      return false;
    }
    var contentLower := Lower(m.content);
    for k := 0 to |f.blockedWords|
      invariant forall j :: 0 <= j < k ==> !ContainsIgnoreCase(m.content, f.blockedWords[j])
    {
      if Contains(contentLower, Lower(f.blockedWords[k])) {
        return false;
      }
    }
    if f.commandsOnly && !StartsWith(m.content, "!") && !StartsWith(m.content, "/") {
      return false;
    }
    return true;
  }

  // ---------------------------------------------------------------------------
  // Channels of a platform
  // ---------------------------------------------------------------------------

  /** `ChannelInfo`; `joined_at` is an instant on the model's clock. */
  datatype ChannelInfo = ChannelInfo(
    name: string, joinedAt: nat, messageCount: nat, viewerCount: Option<nat>,
    live: bool, title: Option<string>, category: Option<string>)

  /** The state `BasePlatform` keeps about its connection and channels; the
      message queue and credentials are not part of this model. */
  class BasePlatform {
    var platformName: string
    var platformType: Config.PlatformType
    var connected: bool
    var channels: map<string, ChannelInfo>
    var rateLimiter: RateLimiter

    /** `BasePlatform::new`: disconnected, no channels, a limiter of 20
        messages a second and 100 a minute. */
    constructor (platformName: string, platformType: Config.PlatformType, now: nat)
      ensures this.platformName == platformName && this.platformType == platformType
      ensures !connected && channels == map[]
      ensures fresh(rateLimiter) && rateLimiter.State() == LimiterState(20, 100, 0, 0, now, now)
    {
      this.platformName := platformName;
      this.platformType := platformType;
      connected := false;
      channels := map[];
      rateLimiter := new RateLimiter(20, 100, now);
    }

    /** `update_channel_info`: insert or replace. */
    method UpdateChannelInfo(channel: string, info: ChannelInfo)
      modifies this`channels
      ensures channels == old(channels)[channel := info]
    {
      channels := channels[channel := info];
    }

    /** `get_channel_info`. */
    function GetChannelInfo(channel: string): (r: Option<ChannelInfo>)
      reads this
      ensures r.Some? <==> channel in channels
      ensures r.Some? ==> r.value == channels[channel]
    {
      if channel in channels then Some(channels[channel]) else None
    }

    /** `is_in_channel`. */
    function IsInChannel(channel: string): (b: bool)
      reads this
      ensures b <==> GetChannelInfo(channel).Some?
    {
      channel in channels
    }

    /** `get_active_channels`, in no particular order. */
    function ActiveChannels(): (s: set<string>)
      reads this
      ensures forall c :: c in s <==> IsInChannel(c)
    {
      channels.Keys
    }
  }

  /** Updating a channel makes it active and readable, and leaves the other
      channels as they were. */
  lemma UpdateThenGet(channels: map<string, ChannelInfo>, c: string, info: ChannelInfo, other: string)
    requires other != c
    ensures c in channels[c := info] && channels[c := info][c] == info
    ensures (other in channels[c := info]) == (other in channels)
    ensures other in channels ==> channels[c := info][other] == channels[other]
  {
  }

  // ---------------------------------------------------------------------------
  // Whole-word detection of known names
  // ---------------------------------------------------------------------------

  /** What `emote_utils::detect_emotes_in_text` returns: for each known name,
      in order, its whole-word positions, leaving out names found nowhere. */
  function Detected(text: string, names: seq<string>): seq<(string, seq<TextPosition>)>
    requires forall k :: 0 <= k < |names| ==> |names[k]| > 0
  {
    if names == [] then []
    else
      var ps := EmoteParser.PositionsFrom(text, names[0], 0);
      (if ps == [] then [] else [(names[0], ps)]) + Detected(text, names[1..])
  }

  /** Each reported name is a known one with at least one position, and its
      positions are whole-word occurrences, ascending and disjoint; a known
      name absent from the text is never reported. */
  lemma {:induction false} DetectedSound(text: string, names: seq<string>)
    requires forall k :: 0 <= k < |names| ==> |names[k]| > 0
    ensures forall p :: p in Detected(text, names) ==>
      p.0 in names && p.1 != [] && EmoteParser.SoundPositions(text, p.0, 0, p.1)
    ensures forall k :: 0 <= k < |names| && !Contains(text, names[k]) ==>
      forall p :: p in Detected(text, names) ==> p.0 != names[k]
    decreases |names|
  {
    if names != [] {
      DetectedSound(text, names[1..]);
      EmoteParser.PositionsSound(text, names[0], 0);
      forall k | 0 <= k < |names| && !Contains(text, names[k])
        ensures forall p :: p in Detected(text, names) ==> p.0 != names[k]
      {
        EmoteParser.AbsentNameNoPositions(text, names[k]);
        forall p | p in Detected(text, names) ensures p.0 != names[k] {
          if p.0 == names[k] {
            DetectedAbsent(text, names, names[k]);
          }
        }
      }
    }
  }

  /** A name with no positions is never reported. */
  lemma {:induction false} DetectedAbsent(text: string, names: seq<string>, name: string)
    requires forall k :: 0 <= k < |names| ==> |names[k]| > 0
    requires |name| > 0 && EmoteParser.PositionsFrom(text, name, 0) == []
    ensures forall p :: p in Detected(text, names) ==> p.0 != name
    decreases |names|
  {
    if names != [] {
      DetectedAbsent(text, names[1..], name);
    }
  }

  /** `emote_utils::detect_emotes_in_text`; its search loop for one name is
      the search of `find_emote_positions` (both resume right after a match). */
  method DetectEmotesInText(text: string, names: seq<string>) returns (found: seq<(string, seq<TextPosition>)>)
    requires forall k :: 0 <= k < |names| ==> |names[k]| > 0
    ensures found == Detected(text, names)
  {
    found := [];
    for i := 0 to |names|
      invariant found + Detected(text, names[i..]) == Detected(text, names)
    {
      var positions := EmoteParser.FindEmotePositions(text, names[i]);
      var entry := if positions != [] then [(names[i], positions)] else [];
      DetectStep(text, names, i, found, entry);
      found := found + entry;
    }
    assert names[|names|..] == [];
  }

  /** One turn of the loop over the names keeps the found names a prefix of
      the answer. */
  lemma DetectStep(text: string, names: seq<string>, i: nat, found: seq<(string, seq<TextPosition>)>,
                   entry: seq<(string, seq<TextPosition>)>)
    requires forall k :: 0 <= k < |names| ==> |names[k]| > 0
    requires i < |names|
    requires var ps := EmoteParser.PositionsFrom(text, names[i], 0); entry == if ps != [] then [(names[i], ps)] else []
    requires found + Detected(text, names[i..]) == Detected(text, names)
    ensures (found + entry) + Detected(text, names[i + 1..]) == Detected(text, names)
  {
    assert names[i..][0] == names[i] && names[i..][1..] == names[i + 1..];
    assert Detected(text, names[i..]) == entry + Detected(text, names[i + 1..]);
    AppendAssoc(found, entry, Detected(text, names[i + 1..]));
  }
}
