/** The emote parser of `src/emotes/parser.rs`: the Twitch `emotes` tag
    grammar `id:a-b,c-d/id2:e-f`, detection of registered third-party emote
    names among the words of a message, whole-word search for one name,
    de-duplication by id, and the placeholder text that replaces each emote
    by `:name`. The regular expressions of the parser are modelled by the
    character classes they match. */
module EmoteParser {
  import opened Wrappers
  import opened Text
  import opened Connection

  // ---------------------------------------------------------------------------
  // The Twitch `emotes` tag
  // ---------------------------------------------------------------------------

  /** One `start-end` range of the tag, under its emote id, that passed the
      bounds check against the message. */
  datatype Span = Span(id: string, start: nat, end: nat)

  const TWITCH_EMOTE_CDN := "https://static-cdn.jtvnw.net/emoticons/v2/"
  const TWITCH_EMOTE_VARIANT := "/default/dark/1.0"
  const TWITCH_EMOTE_SIZE: nat := 28

  /** Global emotes have `emotesv2_` ids, subscriber emotes all-digit ids. */
  function ClassifyTwitchSource(id: string): (s: EmoteSource)
    ensures s == TwitchGlobal <==> StartsWith(id, "emotesv2_")
    ensures s == TwitchSubscriber <==> !StartsWith(id, "emotesv2_") && AllDigits(id)
    ensures s == Twitch || s == TwitchGlobal || s == TwitchSubscriber
  {
    if StartsWith(id, "emotesv2_") then TwitchGlobal
    else if AllDigits(id) then TwitchSubscriber
    else Twitch
  }

  /** The span of one `start-end` text: exactly two `-`-pieces, both `usize`
      numerals, both below the message length; anything else is skipped. */
  function RangeSpan(id: string, range: string, len: nat): (r: seq<Span>)
    ensures |r| <= 1
    ensures forall s :: s in r ==> s.id == id && s.start < len && s.end < len
  {
    var bounds := Split(range, '-');
    if |bounds| != 2 then []
    else
      var start := ParseUsize(bounds[0]);
      var end := ParseUsize(bounds[1]);
      if start.Some? && end.Some? && start.value < len && end.value < len
      then [Span(id, start.value, end.value)]
      else []
  }

  function RangeSpans(id: string, ranges: seq<string>, len: nat): (r: seq<Span>)
    ensures forall s :: s in r ==> s.id == id && s.start < len && s.end < len
  {
    if ranges == [] then []
    else RangeSpans(id, ranges[..|ranges| - 1], len) + RangeSpan(id, ranges[|ranges| - 1], len)
  }

  /** One `/`-segment: skipped unless it is exactly `id:ranges`. */
  function SegmentSpans(segment: string, len: nat): (r: seq<Span>)
    ensures forall s :: s in r ==> s.start < len && s.end < len
  {
    var parts := Split(segment, ':');
    if |parts| != 2 then [] else RangeSpans(parts[0], Split(parts[1], ','), len)
  }

  function SegmentsSpans(segments: seq<string>, len: nat): (r: seq<Span>)
    ensures forall s :: s in r ==> s.start < len && s.end < len
  {
    if segments == [] then []
    else SegmentsSpans(segments[..|segments| - 1], len) + SegmentSpans(segments[|segments| - 1], len)
  }

  /** Every in-bounds range of the tag, in tag order. */
  function TwitchSpans(message: string, data: string): (r: seq<Span>)
    ensures forall s :: s in r ==> s.start < |message| && s.end < |message|
  {
    if data == [] then [] else SegmentsSpans(Split(data, '/'), |message|)
  }

  /** The slice `message[start..=end]` panics when `start > end + 1`; callers
      must not pass such a range. */
  predicate NoReversedRange(message: string, data: string) {
    forall s :: s in TwitchSpans(message, data) ==> s.start <= s.end + 1
  }

  function TwitchEmote(message: string, s: Span): Emote
    requires s.start <= s.end + 1 <= |message|
  {
    Emote(s.id, message[s.start..s.end + 1], ClassifyTwitchSource(s.id),
      [TextPosition(s.start, s.end)], Some(TWITCH_EMOTE_CDN + s.id + TWITCH_EMOTE_VARIANT),
      false, Some(TWITCH_EMOTE_SIZE), Some(TWITCH_EMOTE_SIZE),
      EmoteMetadata(false, false, Some(s.id), None))
  }

  predicate SlicesAt(message: string, spans: seq<Span>) {
    forall s :: s in spans ==> s.start <= s.end + 1 <= |message|
  }

  function EmotesOf(message: string, spans: seq<Span>): (r: seq<Emote>)
    requires SlicesAt(message, spans)
    ensures |r| == |spans|
    ensures forall i :: 0 <= i < |spans| ==> r[i] == TwitchEmote(message, spans[i])
  {
    if spans == [] then []
    else EmotesOf(message, spans[..|spans| - 1]) + [TwitchEmote(message, spans[|spans| - 1])]
  }

  /** What `parse_twitch_emotes` returns. */
  function TwitchEmotes(message: string, data: string): seq<Emote>
    requires NoReversedRange(message, data)
  {
    EmotesOf(message, TwitchSpans(message, data))
  }

  /** Each emote of the tag names the message text it covers, carries that
      one range, and is classified and linked by its id. */
  lemma TwitchEmotesShape(message: string, data: string)
    requires NoReversedRange(message, data)
    ensures forall e :: e in TwitchEmotes(message, data) ==>
      && |e.positions| == 1
      && e.positions[0].start <= e.positions[0].end + 1
      && e.positions[0].end < |message|
      && e.name == message[e.positions[0].start..e.positions[0].end + 1]
      && e.source == ClassifyTwitchSource(e.id)
      && e.url == Some(TWITCH_EMOTE_CDN + e.id + TWITCH_EMOTE_VARIANT)
      && e.metadata.emoteSetId == Some(e.id)
  {
    var spans := TwitchSpans(message, data);
    var es := TwitchEmotes(message, data);
    forall e | e in es ensures TwitchShaped(e, message) {
      var i :| 0 <= i < |es| && es[i] == e;
      var s := spans[i];
      assert s in spans;
      assert e == TwitchEmote(message, s);
      TwitchEmoteShaped(message, s);
    }
  }

  predicate TwitchShaped(e: Emote, message: string) {
    && |e.positions| == 1
    && e.positions[0].start <= e.positions[0].end + 1
    && e.positions[0].end < |message|
    && e.name == message[e.positions[0].start..e.positions[0].end + 1]
    && e.source == ClassifyTwitchSource(e.id)
    && e.url == Some(TWITCH_EMOTE_CDN + e.id + TWITCH_EMOTE_VARIANT)
    && e.metadata.emoteSetId == Some(e.id)
  }

  lemma TwitchEmoteShaped(message: string, s: Span)
    requires s.start <= s.end + 1 <= |message| && s.end < |message|
    ensures TwitchShaped(TwitchEmote(message, s), message)
  {
  }

  lemma EmptyTagNoEmotes(message: string)
    ensures NoReversedRange(message, "") && TwitchEmotes(message, "") == []
  {
  }

  // The tag written out: the parse recovers exactly the ranges it was built from.

  /** One emote of a well-formed tag: its id and its `(start, end)` ranges. */
  datatype TagEntry = TagEntry(id: string, ranges: seq<(nat, nat)>)

  function RangeText(r: (nat, nat)): string { NatToString(r.0) + "-" + NatToString(r.1) }

  function RangeTexts(rs: seq<(nat, nat)>): (r: seq<string>)
    ensures |r| == |rs| && forall i :: 0 <= i < |rs| ==> r[i] == RangeText(rs[i])
  {
    seq(|rs|, i requires 0 <= i < |rs| => RangeText(rs[i]))
  }

  function RangesPart(rs: seq<(nat, nat)>): string {
    if rs == [] then "" else Join(RangeTexts(rs), ',')
  }

  function EntryText(e: TagEntry): string { e.id + ":" + RangesPart(e.ranges) }

  function EntryTexts(entries: seq<TagEntry>): (r: seq<string>)
    ensures |r| == |entries| && forall i :: 0 <= i < |entries| ==> r[i] == EntryText(entries[i])
  {
    seq(|entries|, i requires 0 <= i < |entries| => EntryText(entries[i]))
  }

  /** The `emotes` tag Twitch sends for these entries. */
  function EncodeTag(entries: seq<TagEntry>): string
    requires |entries| >= 1
  {
    Join(EntryTexts(entries), '/')
  }

  /** The spans of an entry: its ranges under its id, in order. */
  function EntrySpans(e: TagEntry): seq<Span>
    decreases |e.ranges|
  {
    if e.ranges == [] then []
    else
      var n := |e.ranges| - 1;
      EntrySpans(TagEntry(e.id, e.ranges[..n])) + [Span(e.id, e.ranges[n].0, e.ranges[n].1)]
  }

  function TagSpans(entries: seq<TagEntry>): seq<Span> {
    if entries == [] then []
    else TagSpans(entries[..|entries| - 1]) + EntrySpans(entries[|entries| - 1])
  }

  /** An id free of the two separators, with every range inside the message. */
  predicate WellFormedEntry(e: TagEntry, len: nat) {
    && '/' !in e.id && ':' !in e.id
    && forall i :: 0 <= i < |e.ranges| ==> e.ranges[i].0 < len && e.ranges[i].1 < len
  }

  /** Parsing a well-formed tag yields exactly its ranges, in order. */
  lemma {:induction false} ParseEncodedTag(message: string, entries: seq<TagEntry>)
    requires |entries| >= 1 && |message| <= USIZE_BOUND
    requires forall i :: 0 <= i < |entries| ==> WellFormedEntry(entries[i], |message|)
    ensures TwitchSpans(message, EncodeTag(entries)) == TagSpans(entries)
  {
    var texts := EntryTexts(entries);
    forall i | 0 <= i < |texts| ensures '/' !in texts[i] {
      EntryTextFree(entries[i], '/');
    }
    SplitOfJoin(texts, '/');
    assert EncodeTag(entries) != [];
    SegmentsOfEntries(message, entries);
  }

  lemma {:induction false} SegmentsOfEntries(message: string, entries: seq<TagEntry>)
    requires |message| <= USIZE_BOUND
    requires forall i :: 0 <= i < |entries| ==> WellFormedEntry(entries[i], |message|)
    ensures SegmentsSpans(EntryTexts(entries), |message|) == TagSpans(entries)
    decreases |entries|
  {
    if entries != [] {
      var n := |entries| - 1;
      EntryTextsPrefix(entries, n);
      SegmentsOfEntries(message, entries[..n]);
      SegmentOfEntry(message, entries[n]);
      SegmentsSnoc(EntryTexts(entries), |message|);
    }
  }

  lemma EntryTextsPrefix(entries: seq<TagEntry>, n: nat)
    requires n < |entries|
    ensures EntryTexts(entries)[..n] == EntryTexts(entries[..n])
    ensures EntryTexts(entries)[n] == EntryText(entries[n])
  {
  }

  lemma SegmentsSnoc(texts: seq<string>, len: nat)
    requires texts != []
    ensures SegmentsSpans(texts, len) == SegmentsSpans(texts[..|texts| - 1], len) + SegmentSpans(texts[|texts| - 1], len)
  {
  }

  lemma SegmentOfEntry(message: string, e: TagEntry)
    requires |message| <= USIZE_BOUND && WellFormedEntry(e, |message|)
    ensures SegmentSpans(EntryText(e), |message|) == EntrySpans(e)
  {
    EntrySplit(e);
    if e.ranges == [] {
      EmptyRangesPart(message, e.id);
    } else {
      RangesPartSplit(e.ranges);
      RangesOfTexts(message, e.id, e.ranges);
    }
  }

  /** An entry splits at its one `:` into id and ranges. */
  lemma EntrySplit(e: TagEntry)
    requires ':' !in e.id
    ensures Split(EntryText(e), ':') == [e.id, RangesPart(e.ranges)]
  {
    var rp := RangesPart(e.ranges);
    RangesPartFree(e.ranges, ':');
    assert Join([e.id, rp], ':') == EntryText(e);
    SplitOfJoin([e.id, rp], ':');
  }

  lemma EmptyRangesPart(message: string, id: string)
    ensures RangeSpans(id, Split(RangesPart([]), ','), |message|) == []
  {
    assert Split("", ',') == [""];
    assert RangeSpan(id, "", |message|) == [];
    assert [""][..0] == [];
  }

  /** A non-empty ranges part splits at its commas into the range texts. */
  lemma RangesPartSplit(rs: seq<(nat, nat)>)
    requires rs != []
    ensures Split(RangesPart(rs), ',') == RangeTexts(rs)
  {
    forall i | 0 <= i < |rs| ensures ',' !in RangeTexts(rs)[i] {
      RangeTextFree(rs[i], ',');
    }
    SplitOfJoin(RangeTexts(rs), ',');
  }

  lemma {:induction false} RangesOfTexts(message: string, id: string, rs: seq<(nat, nat)>)
    requires |message| <= USIZE_BOUND
    requires forall i :: 0 <= i < |rs| ==> rs[i].0 < |message| && rs[i].1 < |message|
    ensures RangeSpans(id, RangeTexts(rs), |message|) == EntrySpans(TagEntry(id, rs))
    decreases |rs|
  {
    if rs != [] {
      var n := |rs| - 1;
      var texts := RangeTexts(rs);
      assert texts[..n] == RangeTexts(rs[..n]);
      RangesOfTexts(message, id, rs[..n]);
      RangeSpanOfText(message, id, rs[n]);
    }
  }

  lemma RangeSpanOfText(message: string, id: string, r: (nat, nat))
    requires |message| <= USIZE_BOUND && r.0 < |message| && r.1 < |message|
    ensures RangeSpan(id, RangeText(r), |message|) == [Span(id, r.0, r.1)]
  {
    var a := NatToString(r.0);
    var b := NatToString(r.1);
    RangeTextFree(r, '-');
    assert Join([a, b], '-') == RangeText(r);
    SplitOfJoin([a, b], '-');
    ParseNatToString(r.0, USIZE_BOUND);
    ParseNatToString(r.1, USIZE_BOUND);
  }

  lemma NumeralFree(n: nat, c: char)
    requires !IsDigit(c)
    ensures c !in NatToString(n)
  {
  }

  /** A range text holds digits and one `-`; `c` is none of those. */
  lemma RangeTextFree(r: (nat, nat), c: char)
    requires !IsDigit(c)
    ensures c !in NatToString(r.0) && c !in NatToString(r.1)
    ensures c != '-' ==> c !in RangeText(r)
  {
    NumeralFree(r.0, c);
    NumeralFree(r.1, c);
  }

  lemma RangesPartFree(rs: seq<(nat, nat)>, c: char)
    requires !IsDigit(c) && c != '-' && c != ','
    ensures c !in RangesPart(rs)
  {
    if rs != [] {
      forall i | 0 <= i < |rs| ensures c !in RangeTexts(rs)[i] {
        RangeTextFree(rs[i], c);
      }
      JoinFree(RangeTexts(rs), ',', c);
    }
  }

  lemma EntryTextFree(e: TagEntry, c: char)
    requires c == '/' && '/' !in e.id
    ensures c !in EntryText(e)
  {
    RangesPartFree(e.ranges, c);
  }

  lemma {:induction false} JoinFree(parts: seq<string>, sep: char, c: char)
    requires |parts| >= 1 && c != sep
    requires forall i :: 0 <= i < |parts| ==> c !in parts[i]
    ensures c !in Join(parts, sep)
    decreases |parts|
  {
    if |parts| > 1 {
      JoinFree(parts[1..], sep, c);
    }
  }

  /** `parse_twitch_emotes`: one emote per in-bounds range, in tag order. */
  method ParseTwitchEmotes(message: string, data: string) returns (emotes: seq<Emote>)
    requires NoReversedRange(message, data)
    ensures emotes == TwitchEmotes(message, data)
  {
    emotes := [];
    if data == [] {
      return;
    }
    var segments := Split(data, '/');
    for i := 0 to |segments|
      invariant SlicesAt(message, SegmentsSpans(segments[..i], |message|))
      invariant emotes == EmotesOf(message, SegmentsSpans(segments[..i], |message|))
    {
      SegmentSlices(message, data, segments, i);
      var more := ParseSegment(message, segments[i]);
      SegmentAppend(message, segments, i, emotes, more);
      emotes := emotes + more;
    }
    assert segments[..|segments|] == segments;
  }

  /** One `/`-segment of `parse_twitch_emotes`: skipped unless it is
      `id:ranges`, whose ranges the inner loop reads. */
  method ParseSegment(message: string, segment: string) returns (more: seq<Emote>)
    requires SlicesAt(message, SegmentSpans(segment, |message|))
    ensures more == EmotesOf(message, SegmentSpans(segment, |message|))
  {
    var parts := Split(segment, ':');
    if |parts| != 2 {
      return [];
    }
    more := ParseRanges(message, parts[0], Split(parts[1], ','));
  }

  /** Every span of a segment of the tag slices the message. */
  lemma SegmentSlices(message: string, data: string, segments: seq<string>, i: nat)
    requires data != [] && segments == Split(data, '/') && i < |segments|
    requires NoReversedRange(message, data)
    ensures SlicesAt(message, SegmentSpans(segments[i], |message|))
  {
    SegmentInTag(segments, i, |message|);
    assert TwitchSpans(message, data) == SegmentsSpans(segments, |message|);
  }

  /** The emotes of the first `i + 1` segments extend those of the first `i`. */
  lemma SegmentAppend(message: string, segments: seq<string>, i: nat, emotes: seq<Emote>, more: seq<Emote>)
    requires i < |segments|
    requires SlicesAt(message, SegmentsSpans(segments[..i], |message|))
    requires SlicesAt(message, SegmentSpans(segments[i], |message|))
    requires emotes == EmotesOf(message, SegmentsSpans(segments[..i], |message|))
    requires more == EmotesOf(message, SegmentSpans(segments[i], |message|))
    ensures SlicesAt(message, SegmentsSpans(segments[..i + 1], |message|))
    ensures emotes + more == EmotesOf(message, SegmentsSpans(segments[..i + 1], |message|))
  {
    SegmentInTag(segments, i, |message|);
    AppendSpans(message, SegmentsSpans(segments[..i], |message|), SegmentSpans(segments[i], |message|));
  }

  /** The inner loop of `parse_twitch_emotes`, over the ranges of one segment. */
  method ParseRanges(message: string, id: string, ranges: seq<string>) returns (emotes: seq<Emote>)
    requires SlicesAt(message, RangeSpans(id, ranges, |message|))
    ensures emotes == EmotesOf(message, RangeSpans(id, ranges, |message|))
  {
    emotes := [];
    for j := 0 to |ranges|
      invariant SlicesAt(message, RangeSpans(id, ranges[..j], |message|))
      invariant emotes == EmotesOf(message, RangeSpans(id, ranges[..j], |message|))
    {
      var span := ParseRange(id, ranges[j], |message|);
      if span.Some? {
        RangeTaken(message, id, ranges, j, span.value);
        emotes := emotes + [TwitchEmote(message, span.value)];
      } else {
        RangeSkipped(message, id, ranges, j);
      }
    }
    assert ranges[..|ranges|] == ranges;
  }

  /** One `start-end` range of a tag: its span when both bounds parse and lie
      inside a text of length `len`. */
  method ParseRange(id: string, range: string, len: nat) returns (span: Option<Span>)
    ensures span.Some? ==> RangeSpan(id, range, len) == [span.value]
    ensures span.None? ==> RangeSpan(id, range, len) == []
  {
    var bounds := Split(range, '-');
    if |bounds| != 2 {
      return None;
    }
    var start := ParseUsize(bounds[0]);
    var end := ParseUsize(bounds[1]);
    if start.Some? && end.Some? && start.value < len && end.value < len {
      return Some(Span(id, start.value, end.value));
    }
    return None;
  }

  /** Concatenated spans give concatenated emotes. */
  lemma {:induction false} AppendSpans(message: string, a: seq<Span>, b: seq<Span>)
    requires SlicesAt(message, a) && SlicesAt(message, b)
    ensures SlicesAt(message, a + b)
    ensures EmotesOf(message, a + b) == EmotesOf(message, a) + EmotesOf(message, b)
  {
    assert SlicesAt(message, a + b) by {
      forall s | s in a + b ensures s.start <= s.end + 1 <= |message| {
        if s in a {} else { assert s in b; }
      }
    }
    var l := EmotesOf(message, a + b);
    var ea, eb := EmotesOf(message, a), EmotesOf(message, b);
    var r := ea + eb;
    assert |l| == |r|;
    forall i | 0 <= i < |l| ensures l[i] == r[i] {
      if i < |a| {
        assert (a + b)[i] == a[i] && r[i] == ea[i];
      } else {
        assert (a + b)[i] == b[i - |a|] && r[i] == eb[i - |a|];
      }
    }
  }

  /** The spans of segment `i` are spans of the whole tag. */
  lemma {:induction false} SegmentInTag(segments: seq<string>, i: nat, len: nat)
    requires i < |segments|
    ensures forall s :: s in SegmentSpans(segments[i], len) ==> s in SegmentsSpans(segments, len)
    ensures SegmentsSpans(segments[..i + 1], len) == SegmentsSpans(segments[..i], len) + SegmentSpans(segments[i], len)
    decreases |segments|
  {
    assert segments[..i + 1][..i] == segments[..i];
    if i < |segments| - 1 {
      SegmentInTag(segments[..|segments| - 1], i, len);
      assert segments[..|segments| - 1][i] == segments[i];
    }
  }

  /** Range `j` yields span `s`: the emotes so far gain its emote. */
  lemma RangeTaken(message: string, id: string, ranges: seq<string>, j: nat, s: Span)
    requires j < |ranges| && RangeSpan(id, ranges[j], |message|) == [s]
    requires SlicesAt(message, RangeSpans(id, ranges, |message|))
    requires SlicesAt(message, RangeSpans(id, ranges[..j], |message|))
    ensures s.start <= s.end + 1 <= |message|
    ensures SlicesAt(message, RangeSpans(id, ranges[..j + 1], |message|))
    ensures EmotesOf(message, RangeSpans(id, ranges[..j + 1], |message|))
         == EmotesOf(message, RangeSpans(id, ranges[..j], |message|)) + [TwitchEmote(message, s)]
  {
    RangeStep(id, ranges, j, |message|);
    assert s in RangeSpans(id, ranges, |message|);
    AppendSpans(message, RangeSpans(id, ranges[..j], |message|), [s]);
  }

  /** Range `j` is skipped: the emotes so far are unchanged. */
  lemma RangeSkipped(message: string, id: string, ranges: seq<string>, j: nat)
    requires j < |ranges| && RangeSpan(id, ranges[j], |message|) == []
    requires SlicesAt(message, RangeSpans(id, ranges[..j], |message|))
    ensures SlicesAt(message, RangeSpans(id, ranges[..j + 1], |message|))
    ensures EmotesOf(message, RangeSpans(id, ranges[..j + 1], |message|))
         == EmotesOf(message, RangeSpans(id, ranges[..j], |message|))
  {
    RangeStep(id, ranges, j, |message|);
    assert RangeSpans(id, ranges[..j + 1], |message|) == RangeSpans(id, ranges[..j], |message|);
  }

  /** Range `j` contributes its span after those of the earlier ranges, and
      that span is one of the segment's. */
  lemma {:induction false} RangeStep(id: string, ranges: seq<string>, j: nat, len: nat)
    requires j < |ranges|
    ensures RangeSpans(id, ranges[..j + 1], len) == RangeSpans(id, ranges[..j], len) + RangeSpan(id, ranges[j], len)
    ensures forall s :: s in RangeSpan(id, ranges[j], len) ==> s in RangeSpans(id, ranges, len)
    decreases |ranges|
  {
    assert ranges[..j + 1][..j] == ranges[..j];
    if j < |ranges| - 1 {
      RangeStep(id, ranges[..|ranges| - 1], j, len);
      assert ranges[..|ranges| - 1][j] == ranges[j];
    }
  }

  // ---------------------------------------------------------------------------
  // Third-party emotes: registered names among the words of a message
  // ---------------------------------------------------------------------------

  /** What the parser knows about a registered emote. */
  datatype EmoteInfo = EmoteInfo(
    id: string,
    name: string,
    source: EmoteSource,
    url: Option<string>,
    isAnimated: bool,
    width: Option<nat>,
    height: Option<nat>,
    isZeroWidth: bool)

  /** `register_known_emotes` keys every entry by its own name. */
  predicate KeyedByName(known: map<string, EmoteInfo>) {
    forall k :: k in known ==> known[k].name == k
  }

  /** The registry after registering `es` in order: a later entry replaces an
      earlier one of the same name. */
  function Registered(known: map<string, EmoteInfo>, es: seq<EmoteInfo>): map<string, EmoteInfo>
    decreases |es|
  {
    if es == [] then known else Registered(known[es[0].name := es[0]], es[1..])
  }

  /** A name is registered iff it was before or some entry has it; the entry
      that wins is the last one with that name. */
  lemma RegisteredLookup(known: map<string, EmoteInfo>, es: seq<EmoteInfo>, name: string)
    ensures name in Registered(known, es) <==> name in known || exists i :: 0 <= i < |es| && es[i].name == name
    ensures (forall i :: 0 <= i < |es| ==> es[i].name != name) && name in known ==>
      Registered(known, es)[name] == known[name]
    ensures forall i :: 0 <= i < |es| && es[i].name == name && (forall j :: i < j < |es| ==> es[j].name != name) ==>
      name in Registered(known, es) && Registered(known, es)[name] == es[i]
  {
    RegisteredMember(known, es, name);
    RegisteredUntouched(known, es, name);
    forall i | 0 <= i < |es| && es[i].name == name && (forall j :: i < j < |es| ==> es[j].name != name)
      ensures name in Registered(known, es) && Registered(known, es)[name] == es[i]
    {
      RegisteredLastWins(known, es, name, i);
    }
  }

  lemma {:induction false} RegisteredMember(known: map<string, EmoteInfo>, es: seq<EmoteInfo>, name: string)
    ensures name in Registered(known, es) <==> name in known || exists i :: 0 <= i < |es| && es[i].name == name
    decreases |es|
  {
    if es != [] {
      RegisteredMember(known[es[0].name := es[0]], es[1..], name);
      if exists i :: 0 <= i < |es| && es[i].name == name {
        var i :| 0 <= i < |es| && es[i].name == name;
        if i > 0 { assert es[1..][i - 1] == es[i]; }
      }
      if exists i :: 0 <= i < |es| - 1 && es[1..][i].name == name {
        var i :| 0 <= i < |es| - 1 && es[1..][i].name == name;
        assert es[i + 1].name == name;
      }
    }
  }

  lemma {:induction false} RegisteredUntouched(known: map<string, EmoteInfo>, es: seq<EmoteInfo>, name: string)
    ensures (forall i :: 0 <= i < |es| ==> es[i].name != name) && name in known ==>
      name in Registered(known, es) && Registered(known, es)[name] == known[name]
    decreases |es|
  {
    if es != [] {
      RegisteredUntouched(known[es[0].name := es[0]], es[1..], name);
      if forall i :: 0 <= i < |es| ==> es[i].name != name {
        assert forall i :: 0 <= i < |es| - 1 ==> es[1..][i].name != name by {
          forall i | 0 <= i < |es| - 1 ensures es[1..][i].name != name { assert es[1..][i] == es[i + 1]; }
        }
      }
    }
  }

  lemma {:induction false} RegisteredLastWins(known: map<string, EmoteInfo>, es: seq<EmoteInfo>, name: string, i: nat)
    requires i < |es| && es[i].name == name && forall j :: i < j < |es| ==> es[j].name != name
    ensures name in Registered(known, es) && Registered(known, es)[name] == es[i]
    decreases |es|
  {
    var rest := es[1..];
    if i > 0 {
      assert rest[i - 1] == es[i];
      assert forall j :: i - 1 < j < |rest| ==> rest[j].name != name by {
        forall j | i - 1 < j < |rest| ensures rest[j].name != name { assert rest[j] == es[j + 1]; }
      }
      RegisteredLastWins(known[es[0].name := es[0]], rest, name, i - 1);
    } else {
      assert forall j :: 0 <= j < |rest| ==> rest[j].name != name by {
        forall j | 0 <= j < |rest| ensures rest[j].name != name { assert rest[j] == es[j + 1]; }
      }
      RegisteredUntouched(known[es[0].name := es[0]], rest, name);
    }
  }

  lemma {:induction false} RegisteredKeyed(known: map<string, EmoteInfo>, es: seq<EmoteInfo>)
    requires KeyedByName(known)
    ensures KeyedByName(Registered(known, es))
    decreases |es|
  {
    if es != [] {
      RegisteredKeyed(known[es[0].name := es[0]], es[1..]);
    }
  }

  /** The emote reported for a registered word starting at `start`; it spans
      the word's length. */
  function KnownEmote(info: EmoteInfo, word: string, start: nat): Emote
    requires |word| > 0
  {
    Emote(info.id, info.name, info.source, [TextPosition(start, start + |word| - 1)],
      info.url, info.isAnimated, info.width, info.height,
      EmoteMetadata(info.isZeroWidth, false, None, None))
  }

  /** The width of `ws` written with one space after each word: the start of
      the next word when words are single-spaced. */
  function PrefixWidth(ws: seq<string>): nat {
    if ws == [] then 0 else PrefixWidth(ws[..|ws| - 1]) + |ws[|ws| - 1]| + 1
  }

  predicate AllWords(ws: seq<string>) { forall k :: 0 <= k < |ws| ==> IsWord(ws[k]) }

  /** The emotes detected among words `ws`, the first of which starts at
      `offset`. */
  function Detected(known: map<string, EmoteInfo>, ws: seq<string>, offset: nat): seq<Emote>
    requires AllWords(ws)
    decreases |ws|
  {
    if ws == [] then []
    else
      (if ws[0] in known then [KnownEmote(known[ws[0]], ws[0], offset)] else [])
      + Detected(known, ws[1..], offset + |ws[0]| + 1)
  }

  /** The emote carries one position, and that position selects exactly its
      name in `text`. */
  predicate SpansName(e: Emote, text: string) {
    && |e.positions| == 1
    && e.positions[0].start <= e.positions[0].end < |text|
    && text[e.positions[0].start..e.positions[0].end + 1] == e.name
  }

  /** A registered word found at `offset` yields an emote spanning it. */
  lemma KnownEmoteSpans(known: map<string, EmoteInfo>, w: string, offset: nat, text: string)
    requires KeyedByName(known) && IsWord(w) && w in known
    requires offset + |w| <= |text| && text[offset..offset + |w|] == w
    ensures KnownEmote(known[w], w, offset).name in known
    ensures SpansName(KnownEmote(known[w], w, offset), text)
  {
  }

  /** The first word of single-spaced words, and the rest after one space. */
  lemma JoinSpacesSplit(ws: seq<string>)
    requires |ws| > 0
    ensures |ws| == 1 ==> JoinSpaces(ws) == ws[0]
    ensures |ws| > 1 ==> JoinSpaces(ws) == ws[0] + " " + JoinSpaces(ws[1..])
  {
  }

  /** Over single-spaced text, every detected emote is registered, carries one
      position, and that position covers exactly its name. */
  lemma {:induction false} DetectedAt(known: map<string, EmoteInfo>, ws: seq<string>, offset: nat, text: string)
    requires KeyedByName(known) && AllWords(ws)
    requires offset + |JoinSpaces(ws)| <= |text|
    requires text[offset..offset + |JoinSpaces(ws)|] == JoinSpaces(ws)
    ensures forall e :: e in Detected(known, ws, offset) ==> e.name in known && SpansName(e, text)
    decreases |ws|
  {
    if ws != [] {
      var w := ws[0];
      var whole := JoinSpaces(ws);
      JoinSpacesSplit(ws);
      assert whole[..|w|] == w;
      assert text[offset..offset + |w|] == w by {
        assert text[offset..offset + |w|] == text[offset..offset + |whole|][..|w|];
      }
      var next := offset + |w| + 1;
      var head := if w in known then [KnownEmote(known[w], w, offset)] else [];
      var tail := Detected(known, ws[1..], next);
      assert Detected(known, ws, offset) == head + tail;
      if w in known {
        KnownEmoteSpans(known, w, offset, text);
      }
      if |ws| > 1 {
        var rest := JoinSpaces(ws[1..]);
        assert text[next..next + |rest|] == rest by {
          assert text[next..next + |rest|] == text[offset..offset + |whole|][|w| + 1..];
          assert whole[|w| + 1..] == rest;
        }
        DetectedAt(known, ws[1..], next, text);
      } else {
        assert tail == [];
      }
    }
  }

  /** The source's claim for a message whose words are single-spaced: each
      detected emote's position selects its name in the message. */
  lemma DetectedInMessage(known: map<string, EmoteInfo>, ws: seq<string>)
    requires KeyedByName(known) && AllWords(ws)
    ensures Words(JoinSpaces(ws)) == ws
    ensures forall e :: e in Detected(known, Words(JoinSpaces(ws)), 0) ==>
      && e.name in known
      && |e.positions| == 1
      && e.positions[0].start <= e.positions[0].end < |JoinSpaces(ws)|
      && JoinSpaces(ws)[e.positions[0].start..e.positions[0].end + 1] == e.name
  {
    WordsOfJoinSpaces(ws);
    var text := JoinSpaces(ws);
    assert text[0..|text|] == text;
    DetectedAt(known, ws, 0, text);
  }

  function Names(es: seq<Emote>): seq<string> {
    if es == [] then [] else [es[0].name] + Names(es[1..])
  }

  /** The words of `ws` that are registered names, in order. */
  function RegisteredWords(known: map<string, EmoteInfo>, ws: seq<string>): seq<string> {
    if ws == [] then []
    else (if ws[0] in known then [ws[0]] else []) + RegisteredWords(known, ws[1..])
  }

  /** Only registered words are reported, one emote each, in word order. */
  lemma {:induction false} DetectedNames(known: map<string, EmoteInfo>, ws: seq<string>, offset: nat)
    requires KeyedByName(known) && AllWords(ws)
    ensures Names(Detected(known, ws, offset)) == RegisteredWords(known, ws)
    decreases |ws|
  {
    if ws != [] {
      var rest := Detected(known, ws[1..], offset + |ws[0]| + 1);
      DetectedNames(known, ws[1..], offset + |ws[0]| + 1);
      if ws[0] in known {
        var e := KnownEmote(known[ws[0]], ws[0], offset);
        assert ([e] + rest)[1..] == rest;
        assert Names([e] + rest) == [e.name] + Names(rest);
        assert e.name == ws[0];
      } else {
        assert [] + rest == rest;
      }
    }
  }

  // ---------------------------------------------------------------------------
  // Whole-word search for one name
  // ---------------------------------------------------------------------------

  /** The word-boundary test of `find_emote_positions`: the match `[s, e]`
      stands as a whole word when the character before it and the character
      after it are each absent or not alphanumeric. */
  predicate WholeWordAt(text: string, s: nat, e: nat) {
    && (s == 0 || (s <= |text| && !IsAlnum(text[s - 1])))
    && (e + 1 >= |text| || !IsAlnum(text[e + 1]))
  }

  lemma OccursInSuffix(text: string, name: string, start: nat, pos: nat)
    requires start <= |text| && OccursAt(text[start..], name, pos)
    ensures OccursAt(text, name, start + pos)
  {
    assert text[start..][pos..pos + |name|] == text[start + pos..start + pos + |name|];
  }

  /** The first occurrence of `name` at or after `k`, as an index into the
      whole text. */
  function NextMatch(text: string, name: string, k: nat): (r: Option<nat>)
    requires k <= |text|
    ensures r.Some? ==> k <= r.value && r.value + |name| <= |text| && OccursAt(text, name, r.value)
    decreases |text| - k
  {
    if OccursAt(text, name, k) then Some(k)
    else if k == |text| then None
    else NextMatch(text, name, k + 1)
  }

  /** `NextMatch` finds the first occurrence, and misses none. */
  lemma {:induction false} NextMatchFirst(text: string, name: string, k: nat, j: nat)
    requires k <= j <= |text| && OccursAt(text, name, j)
    ensures NextMatch(text, name, k).Some? && NextMatch(text, name, k).value <= j
    decreases |text| - k
  {
    if !OccursAt(text, name, k) {
      NextMatchFirst(text, name, k + 1, j);
    }
  }

  lemma OccursInSuffixIff(text: string, name: string, start: nat, pos: nat)
    requires start <= |text|
    ensures OccursAt(text[start..], name, pos) <==> OccursAt(text, name, start + pos)
  {
    if start + pos + |name| <= |text| {
      assert text[start..][pos..pos + |name|] == text[start + pos..start + pos + |name|];
    }
  }

  /** Searching the suffix from `start`, as the source does, finds what
      `NextMatch` finds, shifted by `start`. */
  lemma FindSomeIsNextMatch(text: string, name: string, start: nat, p: nat)
    requires start <= |text| && Find(text[start..], name) == Some(p)
    ensures NextMatch(text, name, start) == Some(start + p)
  {
    OccursInSuffix(text, name, start, p);
    FirstOccurrenceIsNext(text, name, start, p);
  }

  lemma FirstOccurrenceIsNext(text: string, name: string, start: nat, p: nat)
    requires start <= |text| && OccursAt(text, name, start + p)
    requires forall j: nat :: j < p ==> !OccursAt(text[start..], name, j)
    ensures NextMatch(text, name, start) == Some(start + p)
  {
    NextMatchFirst(text, name, start, start + p);
    var k := NextMatch(text, name, start).value;
    SuffixOccurrence(text, name, start, k);
  }

  lemma SuffixOccurrence(text: string, name: string, start: nat, k: nat)
    requires start <= k && OccursAt(text, name, k)
    ensures OccursAt(text[start..], name, k - start)
  {
    assert text[start..][k - start..k - start + |name|] == text[k..k + |name|];
  }

  /** A suffix without the name leaves `NextMatch` nothing to find. */
  lemma FindNoneIsNextMatch(text: string, name: string, start: nat)
    requires start <= |text| && Find(text[start..], name).None?
    ensures NextMatch(text, name, start).None?
  {
    NextMatchContained(text, name, start);
  }

  lemma NextMatchContained(text: string, name: string, start: nat)
    requires start <= |text|
    ensures NextMatch(text, name, start).Some? ==> Contains(text[start..], name)
  {
    var n := NextMatch(text, name, start);
    if n.Some? {
      OccursInSuffixIff(text, name, start, n.value - start);
      assert OccursAt(text[start..], name, n.value - start);
    }
  }

  /** The positions `find_emote_positions` reports from `start` on: take the
      first occurrence, keep it if it is a whole word, resume after it. */
  function PositionsFrom(text: string, name: string, start: nat): seq<TextPosition>
    requires |name| > 0 && start <= |text|
    decreases |text| - start
  {
    match NextMatch(text, name, start)
    case None => []
    case Some(s) =>
      var e := s + |name| - 1;
      (if WholeWordAt(text, s, e) then [TextPosition(s, e)] else []) + PositionsFrom(text, name, e + 1)
  }

  /** Whole-word occurrences of `name` at or after `start`, strictly ascending
      and pairwise disjoint. */
  predicate SoundPositions(text: string, name: string, start: nat, r: seq<TextPosition>) {
    && (forall i :: 0 <= i < |r| ==>
      && start <= r[i].start
      && r[i].end + 1 == r[i].start + |name|
      && OccursAt(text, name, r[i].start)
      && WholeWordAt(text, r[i].start, r[i].end))
    && (forall i, j :: 0 <= i < j < |r| ==> r[i].end < r[j].start)
  }

  /** `SoundPositions`, stated one position at a time: each position is a
      whole-word occurrence at or after `start`, and the next ones lie after it. */
  predicate SoundChain(text: string, name: string, start: nat, r: seq<TextPosition>)
    decreases |r|
  {
    r == [] ||
    (&& start <= r[0].start
     && r[0].end + 1 == r[0].start + |name|
     && OccursAt(text, name, r[0].start)
     && WholeWordAt(text, r[0].start, r[0].end)
     && SoundChain(text, name, r[0].end + 1, r[1..]))
  }

  lemma {:induction false} PositionsChain(text: string, name: string, start: nat)
    requires |name| > 0 && start <= |text|
    ensures SoundChain(text, name, start, PositionsFrom(text, name, start))
    decreases |text| - start
  {
    var m := NextMatch(text, name, start);
    if m.None? {
      ChainOfNone(text, name, start);
    } else {
      var s := m.value;
      var e := s + |name| - 1;
      assert start < e + 1 <= |text|;
      PositionsChain(text, name, e + 1);
      ChainOfRound(text, name, start, s, e);
    }
  }

  lemma ChainOfNone(text: string, name: string, start: nat)
    requires |name| > 0 && start <= |text| && NextMatch(text, name, start).None?
    ensures SoundChain(text, name, start, PositionsFrom(text, name, start))
  {
    assert PositionsFrom(text, name, start) == [];
  }

  /** One round of the search extends a sound chain of the positions after it. */
  lemma ChainOfRound(text: string, name: string, start: nat, s: nat, e: nat)
    requires |name| > 0 && start <= |text| && NextMatch(text, name, start) == Some(s) && e == s + |name| - 1
    requires e + 1 <= |text| && SoundChain(text, name, e + 1, PositionsFrom(text, name, e + 1))
    ensures SoundChain(text, name, start, PositionsFrom(text, name, start))
  {
    RoundSplit(text, name, start, s, e);
    ChainStep(text, name, start, s, e, PositionsFrom(text, name, e + 1), PositionsFrom(text, name, start));
  }

  /** One round of the search, with the occurrence at `s` ending at `e`. */
  lemma RoundSplit(text: string, name: string, start: nat, s: nat, e: nat)
    requires |name| > 0 && start <= |text| && NextMatch(text, name, start) == Some(s) && e == s + |name| - 1
    ensures start < e + 1 <= |text|
    ensures PositionsFrom(text, name, start)
      == (if WholeWordAt(text, s, e) then [TextPosition(s, e)] else []) + PositionsFrom(text, name, e + 1)
  {
    PositionsUnfold(text, name, start);
    var n := s + |name|;
    assert n == e + 1;
    assert PositionsFrom(text, name, start)
      == (if WholeWordAt(text, s, e) then [TextPosition(s, e)] else []) + PositionsFrom(text, name, n);
  }

  lemma PositionsUnfold(text: string, name: string, start: nat)
    requires |name| > 0 && start <= |text| && NextMatch(text, name, start).Some?
    ensures var s := NextMatch(text, name, start).value;
      PositionsFrom(text, name, start)
      == (if WholeWordAt(text, s, s + |name| - 1) then [TextPosition(s, s + |name| - 1)] else [])
         + PositionsFrom(text, name, s + |name|)
  {
  }

  lemma ChainStep(text: string, name: string, start: nat, s: nat, e: nat, rest: seq<TextPosition>,
                  r: seq<TextPosition>)
    requires start <= s && e + 1 == s + |name| && OccursAt(text, name, s)
    requires r == (if WholeWordAt(text, s, e) then [TextPosition(s, e)] else []) + rest
    requires SoundChain(text, name, e + 1, rest)
    ensures SoundChain(text, name, start, r)
  {
    if WholeWordAt(text, s, e) {
      assert r[0] == TextPosition(s, e) && r[1..] == rest;
    } else {
      assert r == rest;
      ChainLater(text, name, start, e + 1, rest);
    }
  }

  lemma ChainLater(text: string, name: string, start: nat, later: nat, r: seq<TextPosition>)
    requires start <= later && SoundChain(text, name, later, r)
    ensures SoundChain(text, name, start, r)
  {
  }

  lemma {:induction false} ChainSound(text: string, name: string, start: nat, r: seq<TextPosition>)
    requires SoundChain(text, name, start, r)
    ensures SoundPositions(text, name, start, r)
    decreases |r|
  {
    if r != [] {
      ChainSound(text, name, r[0].end + 1, r[1..]);
      SoundCons(text, name, start, r[0], r[1..]);
      assert [r[0]] + r[1..] == r;
    }
  }

  /** The reported positions are whole-word occurrences of the name, strictly
      ascending and pairwise disjoint. */
  lemma PositionsSound(text: string, name: string, start: nat)
    requires |name| > 0 && start <= |text|
    ensures SoundPositions(text, name, start, PositionsFrom(text, name, start))
  {
    PositionsChain(text, name, start);
    ChainSound(text, name, start, PositionsFrom(text, name, start));
  }

  /** A sound occurrence followed by sound positions that start after it. */
  lemma SoundCons(text: string, name: string, start: nat, p: TextPosition, rest: seq<TextPosition>)
    requires start <= p.start && p.end + 1 == p.start + |name|
    requires OccursAt(text, name, p.start) && WholeWordAt(text, p.start, p.end)
    requires SoundPositions(text, name, p.end + 1, rest)
    ensures SoundPositions(text, name, start, [p] + rest)
  {
    var r := [p] + rest;
    assert forall i :: 0 < i < |r| ==> r[i] == rest[i - 1];
  }

  /** No occurrence at all means no positions. */
  lemma AbsentNameNoPositions(text: string, name: string)
    requires |name| > 0 && !Contains(text, name)
    ensures PositionsFrom(text, name, 0) == []
  {
    assert text[0..] == text;
  }

  const KAPPA_TEXT := "Hello Kappa world Kappa"

  lemma KappaMatches()
    ensures NextMatch(KAPPA_TEXT, "Kappa", 0) == Some(6)
    ensures NextMatch(KAPPA_TEXT, "Kappa", 11) == Some(18)
    ensures NextMatch(KAPPA_TEXT, "Kappa", 23) == None
  {
    var t := KAPPA_TEXT;
    KappaOccurrences();
    forall i | 0 <= i < 6 || 11 <= i < 18 ensures !OccursAt(t, "Kappa", i) {
      NotStartingAt(t, "Kappa", i);
    }
    NextMatchIs(t, "Kappa", 0, 6);
    NextMatchIs(t, "Kappa", 11, 18);
  }

  lemma KappaOccurrences()
    ensures OccursAt(KAPPA_TEXT, "Kappa", 6) && OccursAt(KAPPA_TEXT, "Kappa", 18)
  {
    var t := KAPPA_TEXT;
    assert |t| == 23;
    assert t[6..11] == "Kappa";
    assert t[18..23] == "Kappa";
  }

  /** A name cannot occur where its first character is missing. */
  lemma NotStartingAt(text: string, name: string, i: nat)
    requires |name| > 0 && i < |text| && text[i] != name[0]
    ensures !OccursAt(text, name, i)
  {
  }

  lemma KappaBoundaries()
    ensures WholeWordAt(KAPPA_TEXT, 6, 10) && WholeWordAt(KAPPA_TEXT, 18, 22)
  {
    var t := KAPPA_TEXT;
    assert t[5] == ' ' && t[11] == ' ' && t[17] == ' ';
  }

  lemma KappaRounds()
    ensures PositionsFrom(KAPPA_TEXT, "Kappa", 0) == [TextPosition(6, 10)] + PositionsFrom(KAPPA_TEXT, "Kappa", 11)
    ensures PositionsFrom(KAPPA_TEXT, "Kappa", 11) == [TextPosition(18, 22)] + PositionsFrom(KAPPA_TEXT, "Kappa", 23)
  {
    var t := KAPPA_TEXT;
    KappaMatches();
    KappaBoundaries();
    PositionsUnfold(t, "Kappa", 0);
    PositionsUnfold(t, "Kappa", 11);
  }

  /** The example of the source's unit test: both occurrences are whole words. */
  lemma FindPositionsExample()
    ensures PositionsFrom(KAPPA_TEXT, "Kappa", 0) == [TextPosition(6, 10), TextPosition(18, 22)]
  {
    KappaMatches();
    KappaRounds();
    assert PositionsFrom(KAPPA_TEXT, "Kappa", 23) == [];
  }

  /** The first occurrence at or after `k` is `j` when there is one at `j`
      and none in between. */
  lemma NextMatchIs(text: string, name: string, k: nat, j: nat)
    requires k <= j <= |text| && OccursAt(text, name, j)
    requires forall i :: k <= i < j ==> !OccursAt(text, name, i)
    ensures NextMatch(text, name, k) == Some(j)
  {
    NextMatchFirst(text, name, k, j);
  }

  /** `find_emote_positions` (the name must be non-empty: an empty name makes
      the source's `len() - 1` underflow). */
  method FindEmotePositions(text: string, name: string) returns (positions: seq<TextPosition>)
    requires |name| > 0
    ensures positions == PositionsFrom(text, name, 0)
  {
    positions := [];
    var start := 0;
    ghost var total := PositionsFrom(text, name, 0);
    var done := false;
    while !done
      invariant start <= |text|
      invariant done ==> positions == total
      invariant !done ==> positions + PositionsFrom(text, name, start) == total
      decreases |text| - start, !done
    {
      positions, start, done := SearchRound(text, name, positions, start, total);
    }
  }

  /** One round of the search loop: the next occurrence, kept when it is a
      whole word, and the search resumed right after it; `done` once there is
      none. */
  method SearchRound(text: string, name: string, positions: seq<TextPosition>, start: nat,
                     ghost total: seq<TextPosition>)
      returns (next: seq<TextPosition>, start': nat, done: bool)
    requires |name| > 0 && start <= |text|
    requires positions + PositionsFrom(text, name, start) == total
    ensures start' <= |text|
    ensures done ==> next == total && start' == start
    ensures !done ==> start < start' && next + PositionsFrom(text, name, start') == total
  {
    var found := SearchFrom(text, name, start);
    if found.None? {
      SearchDone(text, name, positions, start, total);
      next, start', done := positions, start, true;
    } else {
      var actualStart := found.value;
      var actualEnd := actualStart + |name| - 1;
      next := positions;
      if WholeWordAt(text, actualStart, actualEnd) {
        next := positions + [TextPosition(actualStart, actualEnd)];
      }
      SearchStep(text, name, positions, next, start, actualStart, actualEnd, total);
      start', done := actualEnd + 1, false;
    }
  }

  /** The search loop stops with every position found. */
  lemma SearchDone(text: string, name: string, positions: seq<TextPosition>, start: nat, total: seq<TextPosition>)
    requires |name| > 0 && start <= |text|
    requires NextMatch(text, name, start).None?
    requires positions + PositionsFrom(text, name, start) == total
    ensures positions == total
  {
    assert PositionsFrom(text, name, start) == [];
  }

  /** `text[start..].find(name)`, turned into an index into the whole text. */
  method SearchFrom(text: string, name: string, start: nat) returns (found: Option<nat>)
    requires start <= |text|
    ensures found == NextMatch(text, name, start)
  {
    var pos := Find(text[start..], name);
    if pos.None? {
      FindNoneIsNextMatch(text, name, start);
      found := None;
    } else {
      FindSomeIsNextMatch(text, name, start, pos.value);
      found := Some(start + pos.value);
    }
  }

  /** One round of the search loop keeps its invariant. */
  lemma SearchStep(text: string, name: string, positions: seq<TextPosition>, next: seq<TextPosition>,
                   start: nat, s: nat, e: nat, total: seq<TextPosition>)
    requires |name| > 0 && start <= s && start <= |text|
    requires NextMatch(text, name, start) == Some(s) && e == s + |name| - 1
    requires next == if WholeWordAt(text, s, e) then positions + [TextPosition(s, e)] else positions
    requires positions + PositionsFrom(text, name, start) == total
    ensures start < e + 1 <= |text|
    ensures next + PositionsFrom(text, name, e + 1) == total
  {
    var rest := PositionsFrom(text, name, e + 1);
    var keep := WholeWordAt(text, s, e);
    RoundSplit(text, name, start, s, e);
    AppendRound(positions, TextPosition(s, e), keep, rest, PositionsFrom(text, name, start), total);
  }

  lemma AppendRound(positions: seq<TextPosition>, p: TextPosition, keep: bool, rest: seq<TextPosition>,
                    r: seq<TextPosition>, total: seq<TextPosition>)
    requires r == (if keep then [p] else []) + rest && positions + r == total
    ensures keep ==> (positions + [p]) + rest == total
    ensures !keep ==> positions + rest == total
  {
    if keep {
      assert positions + ([p] + rest) == (positions + [p]) + rest;
    } else {
      assert r == rest;
    }
  }

  // ---------------------------------------------------------------------------
  // De-duplication by id
  // ---------------------------------------------------------------------------

  predicate HasId(es: seq<Emote>, id: string) { exists i :: 0 <= i < |es| && es[i].id == id }

  /** `deduplicate_emotes`: the first emote of each id, in order. The result
      has the same ids as the input, each once. */
  function Dedup(es: seq<Emote>): (r: seq<Emote>)
    ensures forall id :: HasId(r, id) <==> HasId(es, id)
    ensures forall i, j :: 0 <= i < j < |r| ==> r[i].id != r[j].id
  {
    if es == [] then []
    else
      var n := |es| - 1;
      var front := Dedup(es[..n]);
      assert forall id :: HasId(es, id) <==> HasId(es[..n], id) || es[n].id == id by {
        forall id | HasId(es, id) ensures HasId(es[..n], id) || es[n].id == id {
          var i :| 0 <= i < |es| && es[i].id == id;
          if i < n { assert es[..n][i] == es[i]; }
        }
        forall id | HasId(es[..n], id) ensures HasId(es, id) {
          var i :| 0 <= i < n && es[..n][i].id == id;
          assert es[i] == es[..n][i];
        }
      }
      if HasId(front, es[n].id) then front
      else
        assert forall id :: HasId(front + [es[n]], id) <==> HasId(front, id) || es[n].id == id by {
          forall id | HasId(front + [es[n]], id) ensures HasId(front, id) || es[n].id == id {
            var i :| 0 <= i < |front| + 1 && (front + [es[n]])[i].id == id;
            if i < |front| { assert (front + [es[n]])[i] == front[i]; }
          }
          forall id | HasId(front, id) ensures HasId(front + [es[n]], id) {
            var i :| 0 <= i < |front| && front[i].id == id;
            assert (front + [es[n]])[i] == front[i];
          }
          assert (front + [es[n]])[|front|] == es[n];
        }
        front + [es[n]]
  }

  /** The emotes whose id does not occur earlier in the list: an
      order-preserving filter of the input. */
  function FirstOccurrences(es: seq<Emote>): seq<Emote> {
    if es == [] then []
    else
      var n := |es| - 1;
      FirstOccurrences(es[..n]) + (if HasId(es[..n], es[n].id) then [] else [es[n]])
  }

  /** `deduplicate_emotes` keeps exactly the first occurrences, in input order. */
  lemma {:induction false} DedupIsFirstOccurrences(es: seq<Emote>)
    ensures Dedup(es) == FirstOccurrences(es)
  {
    if es != [] {
      var n := |es| - 1;
      DedupIsFirstOccurrences(es[..n]);
      assert HasId(Dedup(es[..n]), es[n].id) <==> HasId(es[..n], es[n].id);
    }
  }

  method DeduplicateEmotes(emotes: seq<Emote>) returns (result: seq<Emote>)
    ensures result == Dedup(emotes)
  {
    var seenIds: set<string> := {};
    result := [];
    for i := 0 to |emotes|
      invariant result == Dedup(emotes[..i])
      invariant forall id :: id in seenIds <==> HasId(result, id)
    {
      assert emotes[..i + 1][..i] == emotes[..i];
      var e := emotes[i];
      if e.id !in seenIds {
        assert forall id :: HasId(result + [e], id) <==> HasId(result, id) || e.id == id by {
          forall id | HasId(result + [e], id) ensures HasId(result, id) || e.id == id {
            var k :| 0 <= k < |result| + 1 && (result + [e])[k].id == id;
            if k < |result| { assert (result + [e])[k] == result[k]; }
          }
          forall id | HasId(result, id) ensures HasId(result + [e], id) {
            var k :| 0 <= k < |result| && result[k].id == id;
            assert (result + [e])[k] == result[k];
          }
          assert (result + [e])[|result|] == e;
        }
        seenIds := seenIds + {e.id};
        result := result + [e];
      }
    }
    assert emotes[..|emotes|] == emotes;
  }

  // ---------------------------------------------------------------------------
  // Plain text with `:name` placeholders
  // ---------------------------------------------------------------------------

  /** The sort key of `extract_plain_text`: the start of the first position,
      0 for an emote without positions. */
  function FirstStart(e: Emote): nat { if e.positions == [] then 0 else e.positions[0].start }

  predicate DescendingStarts(es: seq<Emote>) {
    forall i, j :: 0 <= i < j < |es| ==> FirstStart(es[i]) >= FirstStart(es[j])
  }

  function InsertByStart(e: Emote, sorted: seq<Emote>): seq<Emote> {
    if sorted == [] || FirstStart(sorted[0]) <= FirstStart(e) then [e] + sorted
    else [sorted[0]] + InsertByStart(e, sorted[1..])
  }

  lemma {:induction false} InsertByStartPerm(e: Emote, sorted: seq<Emote>)
    ensures multiset(InsertByStart(e, sorted)) == multiset(sorted) + multiset{e}
    decreases |sorted|
  {
    if sorted != [] && FirstStart(sorted[0]) > FirstStart(e) {
      InsertByStartPerm(e, sorted[1..]);
      assert sorted == [sorted[0]] + sorted[1..];
    }
  }

  /** Inserting keeps every first start under a common bound. */
  lemma {:induction false} InsertByStartBounded(e: Emote, s: seq<Emote>, b: nat)
    requires FirstStart(e) <= b
    requires forall k :: 0 <= k < |s| ==> FirstStart(s[k]) <= b
    ensures |InsertByStart(e, s)| == |s| + 1
    ensures forall k :: 0 <= k < |InsertByStart(e, s)| ==> FirstStart(InsertByStart(e, s)[k]) <= b
    decreases |s|
  {
    if s != [] && FirstStart(s[0]) > FirstStart(e) {
      InsertByStartBounded(e, s[1..], b);
      var r := InsertByStart(e, s);
      assert forall k :: 1 <= k < |r| ==> r[k] == InsertByStart(e, s[1..])[k - 1];
    }
  }

  /** Putting an element no smaller than all others in front keeps the order. */
  lemma DescendingCons(x: Emote, r: seq<Emote>)
    requires DescendingStarts(r)
    requires forall k :: 0 <= k < |r| ==> FirstStart(r[k]) <= FirstStart(x)
    ensures DescendingStarts([x] + r)
  {
    var xr := [x] + r;
    forall i, j | 0 <= i < j < |xr| ensures FirstStart(xr[i]) >= FirstStart(xr[j]) {
      assert xr[j] == r[j - 1];
      if i > 0 { assert xr[i] == r[i - 1]; }
    }
  }

  lemma {:induction false} InsertByStartSorted(e: Emote, sorted: seq<Emote>)
    requires DescendingStarts(sorted)
    ensures DescendingStarts(InsertByStart(e, sorted))
    decreases |sorted|
  {
    if sorted == [] || FirstStart(sorted[0]) <= FirstStart(e) {
      DescendingCons(e, sorted);
    } else {
      var tail := sorted[1..];
      var top := FirstStart(sorted[0]);
      assert DescendingStarts(tail) by {
        forall i, j | 0 <= i < j < |tail| ensures FirstStart(tail[i]) >= FirstStart(tail[j]) {
          assert tail[i] == sorted[i + 1] && tail[j] == sorted[j + 1];
        }
      }
      assert forall k :: 0 <= k < |tail| ==> FirstStart(tail[k]) <= top by {
        forall k | 0 <= k < |tail| ensures FirstStart(tail[k]) <= top {
          assert tail[k] == sorted[k + 1];
        }
      }
      InsertByStartSorted(e, tail);
      InsertByStartBounded(e, tail, top);
      DescendingCons(sorted[0], InsertByStart(e, tail));
    }
  }

  /** The order in which `extract_plain_text` visits the emotes: by descending
      first start (a stable sort in the source). */
  function SortByStart(es: seq<Emote>): (r: seq<Emote>)
    ensures multiset(r) == multiset(es)
    ensures DescendingStarts(r)
  {
    if es == [] then []
    else
      assert es == [es[0]] + es[1..];
      InsertByStartPerm(es[0], SortByStart(es[1..]));
      InsertByStartSorted(es[0], SortByStart(es[1..]));
      InsertByStart(es[0], SortByStart(es[1..]))
  }

  /** Every position is a valid `start..=end` range, so `replace_range` never
      panics on it. */
  predicate PositionsOrdered(es: seq<Emote>) {
    forall i, k :: 0 <= i < |es| && 0 <= k < |es[i].positions| ==>
      es[i].positions[k].start <= es[i].positions[k].end + 1
  }

  /** `replace_range(start..=end, with)`. */
  function ReplaceRange(s: string, p: TextPosition, with: string): (r: string)
    requires p.start <= p.end + 1 <= |s|
    ensures |r| == |s| - (p.end + 1 - p.start) + |with|
  {
    s[..p.start] + with + s[p.end + 1..]
  }

  /** The bounds test of `extract_plain_text`: both ends inside the current text. */
  predicate InText(s: string, p: TextPosition) {
    p.start < |s| && p.end < |s|
  }

  /** The placeholders of one emote, position by position. A position beyond
      the current text is skipped; a reversed one inside it makes
      `replace_range` panic, which is `None`. */
  function ApplyPositions(s: string, name: string, ps: seq<TextPosition>): Option<string>
    decreases |ps|
  {
    if ps == [] then Some(s)
    else if !InText(s, ps[0]) then ApplyPositions(s, name, ps[1..])
    else if ps[0].end + 1 < ps[0].start then None
    else ApplyPositions(ReplaceRange(s, ps[0], ":" + name), name, ps[1..])
  }

  function ApplyEmotes(s: string, es: seq<Emote>): Option<string>
    decreases |es|
  {
    if es == [] then Some(s)
    else match ApplyPositions(s, es[0].name, es[0].positions)
      case None => None
      case Some(t) => ApplyEmotes(t, es[1..])
  }

  lemma SortedPositionsOrdered(es: seq<Emote>)
    requires PositionsOrdered(es)
    ensures PositionsOrdered(SortByStart(es))
  {
    var r := SortByStart(es);
    forall i | 0 <= i < |r| ensures r[i] in es {
      assert r[i] in multiset(es);
    }
  }

  /** What `extract_plain_text` returns; `None` where it panics. */
  function PlainText(message: string, emotes: seq<Emote>): Option<string> {
    ApplyEmotes(message, SortByStart(emotes))
  }

  /** Well-formed positions never make `replace_range` panic. */
  lemma {:induction false} OrderedPositionsApply(s: string, name: string, ps: seq<TextPosition>)
    requires forall k :: 0 <= k < |ps| ==> ps[k].start <= ps[k].end + 1
    ensures ApplyPositions(s, name, ps).Some?
    decreases |ps|
  {
    if ps != [] {
      if InText(s, ps[0]) {
        OrderedPositionsApply(ReplaceRange(s, ps[0], ":" + name), name, ps[1..]);
      } else {
        OrderedPositionsApply(s, name, ps[1..]);
      }
    }
  }

  lemma {:induction false} OrderedEmotesApply(s: string, es: seq<Emote>)
    requires PositionsOrdered(es)
    ensures ApplyEmotes(s, es).Some?
    decreases |es|
  {
    if es != [] {
      OrderedPositionsApply(s, es[0].name, es[0].positions);
      var t := ApplyPositions(s, es[0].name, es[0].positions).value;
      var rest := es[1..];
      assert PositionsOrdered(rest) by {
        forall i, k | 0 <= i < |rest| && 0 <= k < |rest[i].positions|
          ensures rest[i].positions[k].start <= rest[i].positions[k].end + 1
        {
          assert rest[i] == es[i + 1];
        }
      }
      OrderedEmotesApply(t, rest);
    }
  }

  /** `extract_plain_text` does not panic when every position is well-formed. */
  lemma PlainTextOrdered(message: string, emotes: seq<Emote>)
    requires PositionsOrdered(emotes)
    ensures PlainText(message, emotes).Some?
  {
    SortedPositionsOrdered(emotes);
    OrderedEmotesApply(message, SortByStart(emotes));
  }

  /** One emote at one in-bounds position: that range becomes `:name`. */
  lemma PlainTextSingle(message: string, e: Emote)
    requires |e.positions| == 1
    requires e.positions[0].start <= e.positions[0].end < |message|
    ensures PositionsOrdered([e])
    ensures PlainText(message, [e])
      == Some(message[..e.positions[0].start] + ":" + e.name + message[e.positions[0].end + 1..])
  {
    assert [e][1..] == [];
    assert SortByStart([e]) == InsertByStart(e, []) == [e];
    var p := e.positions[0];
    var replaced := ReplaceRange(message, p, ":" + e.name);
    assert InText(message, p) && p.start <= p.end + 1;
    assert e.positions[1..] == [];
    assert ApplyPositions(replaced, e.name, []) == Some(replaced);
    assert ApplyPositions(message, e.name, e.positions) == ApplyPositions(replaced, e.name, e.positions[1..]);
    assert ApplyEmotes(replaced, []) == Some(replaced);
    assert ApplyEmotes(message, [e]) == ApplyEmotes(replaced, [e][1..]);
    assert replaced == message[..p.start] + ":" + e.name + message[p.end + 1..];
  }

  /** The example of the source's unit test. */
  lemma PlainTextExample(e: Emote)
    requires e.name == "Kappa" && e.positions == [TextPosition(6, 10)]
    ensures PlainText("Hello Kappa world", [e]) == Some("Hello :Kappa world")
  {
    var m := "Hello Kappa world";
    PlainTextSingle(m, e);
    assert m[..6] == "Hello " && m[11..] == " world";
    assert "Hello " + ":" + "Kappa" + " world" == "Hello :Kappa world";
  }

  /** A reversed position inside the text is the panic of `replace_range`. */
  lemma ReversedInTextPanics(message: string, e: Emote)
    requires |e.positions| == 1
    requires InText(message, e.positions[0]) && e.positions[0].end + 1 < e.positions[0].start
    ensures PlainText(message, [e]) == None
  {
    assert [e][1..] == [];
    assert SortByStart([e]) == InsertByStart(e, []) == [e];
    assert ApplyPositions(message, e.name, e.positions) == None;
  }

  /** Positions outside the text, reversed or not, leave it untouched. */
  lemma {:induction false} OutOfBoundsUnchanged(s: string, name: string, ps: seq<TextPosition>)
    requires forall k :: 0 <= k < |ps| ==> !InText(s, ps[k])
    ensures ApplyPositions(s, name, ps) == Some(s)
    decreases |ps|
  {
    if ps != [] {
      OutOfBoundsUnchanged(s, name, ps[1..]);
    }
  }

  /** A reversed position beyond the text is skipped, not a panic: "ab" with
      an emote at 5-0 stays "ab". */
  lemma ReversedOutsideSkipped(e: Emote)
    requires e.positions == [TextPosition(5, 0)]
    ensures PlainText("ab", [e]) == Some("ab")
  {
    assert [e][1..] == [];
    assert SortByStart([e]) == InsertByStart(e, []) == [e];
    OutOfBoundsUnchanged("ab", e.name, e.positions);
    assert ApplyEmotes("ab", [e]) == ApplyEmotes("ab", []);
  }

  method ExtractPlainText(message: string, emotes: seq<Emote>) returns (result: Option<string>)
    ensures result == PlainText(message, emotes)
    ensures PositionsOrdered(emotes) ==> result.Some?
  {
    if PositionsOrdered(emotes) {
      PlainTextOrdered(message, emotes);
    }
    var text := message;
    var sorted := SortByStart(emotes);
    for i := 0 to |sorted|
      invariant ApplyEmotes(text, sorted[i..]) == PlainText(message, emotes)
    {
      var e := sorted[i];
      assert sorted[i..][0] == e && sorted[i..][1..] == sorted[i + 1..];
      var next := ReplacePositions(text, e.name, e.positions);
      if next.None? {
        return None;
      }
      text := next.value;
    }
    assert sorted[|sorted|..] == [];
    return Some(text);
  }

  /** The inner loop of `extract_plain_text`: each in-bounds position of one
      emote, in order, replaced by `:name`; `None` at a reversed one. */
  method ReplacePositions(s: string, name: string, ps: seq<TextPosition>) returns (r: Option<string>)
    ensures r == ApplyPositions(s, name, ps)
  {
    var text := s;
    assert ps[0..] == ps;
    for j := 0 to |ps|
      invariant ApplyPositions(text, name, ps[j..]) == ApplyPositions(s, name, ps)
    {
      var p := ps[j];
      assert ps[j..][0] == p && ps[j..][1..] == ps[j + 1..];
      if p.start < |text| && p.end < |text| {
        if p.end + 1 < p.start {
          return None;
        }
        text := ReplaceRange(text, p, ":" + name);
      }
    }
    assert ps[|ps|..] == [];
    return Some(text);
  }

  // ---------------------------------------------------------------------------
  // Validity test and statistics
  // ---------------------------------------------------------------------------

  /** The character classes of the parser's four patterns: `[A-Za-z0-9]+`
      (Twitch, FrankerFaceZ) and `[A-Za-z0-9_]+` (BetterTTV, 7TV). */
  datatype CharClass = Alnum | AlnumUnderscore

  const TWITCH_PATTERN := Alnum
  const BTTV_PATTERN := AlnumUnderscore
  const FFZ_PATTERN := Alnum
  const SEVEN_TV_PATTERN := AlnumUnderscore

  predicate InClass(c: CharClass, ch: char) {
    match c
    case Alnum => IsAlnum(ch)
    case AlnumUnderscore => IsWordChar(ch)
  }

  /** `Regex::is_match` of an unanchored one-or-more class pattern: some
      character of the text is in the class. */
  predicate IsMatch(c: CharClass, text: string) {
    exists i :: 0 <= i < |text| && InClass(c, text[i])
  }

  /** How many registered emotes come from `source`. */
  function KeysWithSource(known: map<string, EmoteInfo>, source: EmoteSource): set<string> {
    set k | k in known && known[k].source == source
  }

  function Sources(known: map<string, EmoteInfo>): set<EmoteSource> {
    set k | k in known :: known[k].source
  }

  /** `get_emote_sources_distribution`: for each source that occurs, the
      number of registered emotes from it. */
  function Histogram(known: map<string, EmoteInfo>): map<EmoteSource, nat> {
    map source | source in Sources(known) :: |KeysWithSource(known, source)|
  }

  /** Every source listed has at least one emote and at most all of them,
      and a source is listed iff some registered emote comes from it. */
  lemma HistogramBounds(known: map<string, EmoteInfo>, source: EmoteSource)
    ensures source in Histogram(known) <==> exists k :: k in known && known[k].source == source
    ensures source in Histogram(known) ==> 1 <= Histogram(known)[source] <= |known|
  {
    if source in Histogram(known) {
      var k :| k in known && known[k].source == source;
      assert k in KeysWithSource(known, source);
      assert KeysWithSource(known, source) <= known.Keys;
      SubsetCard(KeysWithSource(known, source), known.Keys);
    }
  }

  lemma SubsetCard(a: set<string>, b: set<string>)
    requires a <= b
    ensures |a| <= |b|
  {
    assert b == a + (b - a);
  }

  /** Counting one more emote, under a new name, adds one to its source. */
  lemma HistogramAdd(known: map<string, EmoteInfo>, k: string, info: EmoteInfo)
    requires k !in known
    ensures Histogram(known[k := info])
      == Histogram(known)[info.source := (if info.source in Histogram(known) then Histogram(known)[info.source] else 0) + 1]
  {
    var src := info.source;
    var h, h' := Histogram(known), Histogram(known[k := info]);
    var expected := h[src := (if src in h then h[src] else 0) + 1];
    SourcesAdd(known, k, info);
    forall x | x in h' ensures x in expected && h'[x] == expected[x] {
      HistogramAt(known, x);
      HistogramAt(known[k := info], x);
      KeysWithSourceAdd(known, k, info, x);
      if x == src {
        var a := KeysWithSource(known, src);
        assert |a + {k}| == |a| + 1;
        if src !in h {
          assert a == {};
        }
      }
    }
    forall x | x in expected ensures x in h' {
      HistogramAt(known, x);
      HistogramAt(known[k := info], x);
    }
  }

  lemma HistogramAt(known: map<string, EmoteInfo>, x: EmoteSource)
    ensures x in Histogram(known) <==> x in Sources(known)
    ensures x in Histogram(known) ==> Histogram(known)[x] == |KeysWithSource(known, x)|
  {
  }

  lemma KeysWithSourceAdd(known: map<string, EmoteInfo>, k: string, info: EmoteInfo, x: EmoteSource)
    requires k !in known
    ensures x == info.source ==> KeysWithSource(known[k := info], x) == KeysWithSource(known, x) + {k}
    ensures x == info.source ==> k !in KeysWithSource(known, x)
    ensures x != info.source ==> KeysWithSource(known[k := info], x) == KeysWithSource(known, x)
  {
  }

  lemma SourcesAdd(known: map<string, EmoteInfo>, k: string, info: EmoteInfo)
    requires k !in known
    ensures Sources(known[k := info]) == Sources(known) + {info.source}
  {
    var m := known[k := info];
    forall x | x in Sources(m) ensures x in Sources(known) + {info.source} {
      var j :| j in m && m[j].source == x;
      if j != k { assert j in known && known[j].source == x; }
    }
    forall x | x in Sources(known) ensures x in Sources(m) {
      var j :| j in known && known[j].source == x;
      assert j in m && m[j].source == x;
    }
    assert k in m && m[k].source == info.source;
  }

  datatype ParserStats = ParserStats(knownEmotesCount: nat, customPatternsCount: nat, sources: map<EmoteSource, nat>)

  /** What `parse_all_emotes` returns: the Twitch tag's emotes when the
      platform is `"twitch"`, then the registered words, first of each id. */
  function AllEmotes(known: map<string, EmoteInfo>, message: string, data: string, platform: string): seq<Emote>
    requires platform == "twitch" ==> NoReversedRange(message, data)
  {
    WordsAreWords(message);
    Dedup((if platform == "twitch" then TwitchEmotes(message, data) else []) + Detected(known, Words(message), 0))
  }

  /** Each id of the Twitch tag (on Twitch) and of the registered words is
      reported exactly once, and no other id is. */
  lemma AllEmotesIds(known: map<string, EmoteInfo>, message: string, data: string, platform: string, id: string)
    requires platform == "twitch" ==> NoReversedRange(message, data)
    ensures AllWords(Words(message))
    ensures var r := AllEmotes(known, message, data, platform);
      && (HasId(r, id) <==>
           (platform == "twitch" && HasId(TwitchEmotes(message, data), id)) || HasId(Detected(known, Words(message), 0), id))
      && forall i, j :: 0 <= i < j < |r| ==> r[i].id != r[j].id
  {
    WordsAreWords(message);
    var a := if platform == "twitch" then TwitchEmotes(message, data) else [];
    var b := Detected(known, Words(message), 0);
    HasIdAppend(a, b, id);
  }

  lemma WordsAreWords(s: string)
    ensures AllWords(Words(s))
  {
    var ws := Words(s);
    forall k | 0 <= k < |ws| ensures IsWord(ws[k]) {
      assert |ws[k]| > 0;
    }
  }

  lemma HasIdAppend(a: seq<Emote>, b: seq<Emote>, id: string)
    ensures HasId(a + b, id) <==> HasId(a, id) || HasId(b, id)
  {
    if HasId(a + b, id) {
      var i :| 0 <= i < |a + b| && (a + b)[i].id == id;
      if i >= |a| { assert b[i - |a|] == (a + b)[i]; }
    }
    if HasId(a, id) {
      var i :| 0 <= i < |a| && a[i].id == id;
      assert (a + b)[i] == a[i];
    }
    if HasId(b, id) {
      var i :| 0 <= i < |b| && b[i].id == id;
      assert (a + b)[|a| + i] == b[i];
    }
  }

  // ---------------------------------------------------------------------------
  // The parser object
  // ---------------------------------------------------------------------------

  /** `EmoteParser`: the registry of known emotes, keyed by name, and the
      names of the custom patterns. The compiled regular expressions are the
      constant character classes above; the custom patterns' expressions are
      not modelled (the parser never applies them). */
  class Parser {
    var knownEmotes: map<string, EmoteInfo>
    var customPatterns: set<string>

    ghost predicate Valid()
      reads this
    {
      KeyedByName(knownEmotes)
    }

    /** `EmoteParser::new`. */
    constructor ()
      ensures Valid()
      ensures knownEmotes == map[] && customPatterns == {}
    {
      knownEmotes := map[];
      customPatterns := {};
    }

    /** `register_known_emotes`: entries are inserted in order under their
        names, a later one replacing an earlier one. */
    method RegisterKnownEmotes(emotes: seq<EmoteInfo>)
      requires Valid()
      modifies this`knownEmotes
      ensures Valid()
      ensures knownEmotes == Registered(old(knownEmotes), emotes)
    {
      ghost var target := Registered(knownEmotes, emotes);
      for i := 0 to |emotes|
        invariant Registered(knownEmotes, emotes[i..]) == target
        invariant KeyedByName(knownEmotes)
      {
        assert emotes[i..][1..] == emotes[i + 1..];
        knownEmotes := knownEmotes[emotes[i].name := emotes[i]];
      }
      assert emotes[|emotes|..] == [];
    }

    /** `register_custom_pattern`: the name is recorded (a second pattern of
        the same name replaces the first). */
    method RegisterCustomPattern(name: string)
      modifies this`customPatterns
      ensures customPatterns == old(customPatterns) + {name}
    {
      customPatterns := customPatterns + {name};
    }

    /** `clear_known_emotes`. */
    method ClearKnownEmotes()
      modifies this`knownEmotes
      ensures Valid() && knownEmotes == map[]
    {
      knownEmotes := map[];
    }

    /** `get_emote_info`: a registered entry carries the name it is found by. */
    function GetEmoteInfo(name: string): (r: Option<EmoteInfo>)
      requires Valid()
      reads this
      ensures r.Some? <==> name in knownEmotes
      ensures r.Some? ==> r.value.name == name
    {
      if name in knownEmotes then Some(knownEmotes[name]) else None
    }

    /** `is_valid_emote`: registered, or matched by one of the four patterns;
        the patterns being unanchored, that is any text holding a letter,
        a digit or an underscore. */
    function IsValidEmote(text: string): (b: bool)
      reads this
      ensures b <==> text in knownEmotes || exists i :: 0 <= i < |text| && IsWordChar(text[i])
    {
      text in knownEmotes
      || IsMatch(TWITCH_PATTERN, text)
      || IsMatch(BTTV_PATTERN, text)
      || IsMatch(FFZ_PATTERN, text)
      || IsMatch(SEVEN_TV_PATTERN, text)
    }

    /** `detect_third_party_emotes`: each whitespace-separated word that is a
        registered name, positioned as if the words were single-spaced. */
    method DetectThirdPartyEmotes(message: string) returns (emotes: seq<Emote>)
      requires Valid()
      ensures emotes == Detected(knownEmotes, Words(message), 0)
    {
      var words := Words(message);
      WordsAreWords(message);
      emotes := [];
      assert words[..0] == [] && words[0..] == words;
      for i := 0 to |words|
        invariant emotes + Detected(knownEmotes, words[i..], PrefixWidth(words[..i])) == Detected(knownEmotes, words, 0)
      {
        var word := words[i];
        DetectStep(knownEmotes, words, i);
        if word in knownEmotes {
          var startPos := PrefixWidth(words[..i]);
          var e := KnownEmote(knownEmotes[word], word, startPos);
          assert emotes + ([e] + Detected(knownEmotes, words[i + 1..], PrefixWidth(words[..i + 1])))
            == (emotes + [e]) + Detected(knownEmotes, words[i + 1..], PrefixWidth(words[..i + 1]));
          emotes := emotes + [e];
        } else {
          assert [] + Detected(knownEmotes, words[i + 1..], PrefixWidth(words[..i + 1]))
            == Detected(knownEmotes, words[i + 1..], PrefixWidth(words[..i + 1]));
        }
      }
      assert words[|words|..] == [];
    }

    /** `parse_all_emotes`. */
    method ParseAllEmotes(message: string, data: string, platform: string) returns (emotes: seq<Emote>)
      requires Valid()
      requires platform == "twitch" ==> NoReversedRange(message, data)
      ensures emotes == AllEmotes(knownEmotes, message, data, platform)
    {
      var all: seq<Emote> := [];
      if platform == "twitch" {
        var twitch := ParseTwitchEmotes(message, data);
        assert [] + twitch == twitch;
        all := all + twitch;
      }
      var thirdParty := DetectThirdPartyEmotes(message);
      all := all + thirdParty;
      WordsAreWords(message);
      emotes := DeduplicateEmotes(all);
    }

    /** `get_stats`. */
    method GetStats() returns (stats: ParserStats)
      ensures stats == ParserStats(|knownEmotes|, |customPatterns|, Histogram(knownEmotes))
    {
      var sources := SourceDistribution(knownEmotes);
      stats := ParserStats(|knownEmotes|, |customPatterns|, sources);
    }
  }

  /** The step of `detect_third_party_emotes` at word `i`. */
  lemma DetectStep(known: map<string, EmoteInfo>, words: seq<string>, i: nat)
    requires AllWords(words) && i < |words|
    ensures AllWords(words[i..]) && AllWords(words[i + 1..])
    ensures PrefixWidth(words[..i + 1]) == PrefixWidth(words[..i]) + |words[i]| + 1
    ensures Detected(known, words[i..], PrefixWidth(words[..i]))
      == (if words[i] in known then [KnownEmote(known[words[i]], words[i], PrefixWidth(words[..i]))] else [])
         + Detected(known, words[i + 1..], PrefixWidth(words[..i + 1]))
  {
    assert words[..i + 1][..i] == words[..i];
    assert words[i..][0] == words[i] && words[i..][1..] == words[i + 1..];
  }

  /** `get_emote_sources_distribution`, one registered emote at a time. */
  method SourceDistribution(known: map<string, EmoteInfo>) returns (distribution: map<EmoteSource, nat>)
    ensures distribution == Histogram(known)
  {
    distribution := map[];
    var remaining := known.Keys;
    ghost var counted: map<string, EmoteInfo> := map[];
    while remaining != {}
      invariant remaining <= known.Keys
      invariant forall k :: k in counted <==> k in known && k !in remaining
      invariant forall k :: k in counted ==> counted[k] == known[k]
      invariant distribution == Histogram(counted)
      decreases |remaining|
    {
      var k :| k in remaining;
      var source := known[k].source;
      HistogramAdd(counted, k, known[k]);
      distribution := distribution[source := (if source in distribution then distribution[source] else 0) + 1];
      counted := counted[k := known[k]];
      remaining := remaining - {k};
    }
    assert counted == known;
  }
}
