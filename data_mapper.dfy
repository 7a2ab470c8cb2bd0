/** The data mapper of `src/mapping/data_mapper.rs`: per-platform field
    transformations, and the step that turns a standardised message into a
    mapped one with its metadata flags and extracted numbers. */
module DataMapper {
  import opened Wrappers
  import opened Text
  import opened Json
  import Connection
  import opened MappingTypes
  import Transformer

  type Msg = StandardizedMessage

  // ---------------------------------------------------------------------------
  // Field transformations
  // ---------------------------------------------------------------------------

  predicate IsUsernameOp(op: string) { op in {"lowercase", "uppercase", "replace"} }
  predicate IsContentOp(op: string) { op in {"lowercase", "uppercase", "replace", "filter_words"} }

  /** The fields `apply_field_transformation` knows with the operations each
      supports. */
  predicate Supported(field: string, op: string) {
    (field == "username" && IsUsernameOp(op)) || (field == "content" && IsContentOp(op))
  }

  /** A case change or a replacement, the operations both fields share. */
  function Rewrite(s: string, op: string, params: Json): string {
    if op == "lowercase" then Lower(s)
    else if op == "uppercase" then Upper(s)
    else if GetStr(params, "from").Some? && GetStr(params, "to").Some? then
      Replace(s, GetStr(params, "from").value, GetStr(params, "to").value)
    else s
  }

  /** `apply_field_transformation`: the user name or the content rewritten;
      nothing else changes, and an unknown field or operation is an error. */
  function ApplyFieldTransformation(m: Msg, field: string, op: string, params: Json): (r: Result<Msg, MappingError>)
    ensures r.Ok? <==> Supported(field, op)
    ensures field != "username" && field != "content" ==> r == Err(ValidationError("Unknown field: " + field))
    ensures (field == "username" || field == "content") && !Supported(field, op) ==>
      r == Err(ValidationError("Unknown operation: " + op))
    ensures r.Ok? && field == "username" ==> r.value == m.(username := r.value.username)
    ensures r.Ok? && field == "content" ==> r.value == m.(content := r.value.content)
    ensures r.Ok? && op == "lowercase" ==>
      (if field == "username" then r.value.username == Lower(m.username) else r.value.content == Lower(m.content))
    ensures r.Ok? && op == "filter_words" ==>
      r.value.content == (if params.Get("words").Some? && params.Get("words").value.Array?
                          then Transformer.FilterWords(m.content, params.Get("words").value.items, "***")
                          else m.content)
  {
    if field == "username" then
      if IsUsernameOp(op) then Ok(m.(username := Rewrite(m.username, op, params)))
      else Err(ValidationError("Unknown operation: " + op))
    else if field == "content" then
      if op == "filter_words" then
        match params.Get("words")
        case Some(Array(words)) => Ok(m.(content := Transformer.FilterWords(m.content, words, "***")))
        case _ => Ok(m)
      else if IsContentOp(op) then Ok(m.(content := Rewrite(m.content, op, params)))
      else Err(ValidationError("Unknown operation: " + op))
    else Err(ValidationError("Unknown field: " + field))
  }

  /** Lowercasing a name twice is lowercasing it once. */
  lemma LowercaseIdempotent(m: Msg, params: Json)
    ensures ApplyFieldTransformation(m, "username", "lowercase", params).Ok?
    ensures var once := ApplyFieldTransformation(m, "username", "lowercase", params).value;
      ApplyFieldTransformation(once, "username", "lowercase", params) == Ok(once)
  {
    LowerIdempotent(m.username);
  }

  /** Only `transformations` entries naming both a field and an operation are
      applied; the others are skipped. */
  function FieldTransformsAll(m: Msg, ts: seq<Json>): Result<Msg, MappingError>
    decreases |ts|
  {
    if ts == [] then Ok(m)
    else if GetStr(ts[0], "field").Some? && GetStr(ts[0], "operation").Some? then
      match ApplyFieldTransformation(m, GetStr(ts[0], "field").value, GetStr(ts[0], "operation").value, ts[0])
      case Err(e) => Err(e)
      case Ok(next) => FieldTransformsAll(next, ts[1..])
    else FieldTransformsAll(m, ts[1..])
  }

  /** The transformations registered for the message's platform. */
  function PlatformTransforms(custom: map<string, Json>, platform: string): seq<Json> {
    if platform in custom then
      match custom[platform].Get("transformations")
      case Some(Array(ts)) => ts
      case _ => []
    else []
  }

  /** Field transformations touch only the user name and the content. */
  lemma {:induction false} FieldTransformsKeep(m: Msg, ts: seq<Json>)
    ensures FieldTransformsAll(m, ts).Ok? ==>
      FieldTransformsAll(m, ts).value == m.(username := FieldTransformsAll(m, ts).value.username,
                                            content := FieldTransformsAll(m, ts).value.content)
    decreases |ts|
  {
    if ts != [] {
      if GetStr(ts[0], "field").Some? && GetStr(ts[0], "operation").Some? {
        var step := ApplyFieldTransformation(m, GetStr(ts[0], "field").value, GetStr(ts[0], "operation").value, ts[0]);
        if step.Ok? { FieldTransformsKeep(step.value, ts[1..]); }
      } else {
        FieldTransformsKeep(m, ts[1..]);
      }
    }
  }

  // ---------------------------------------------------------------------------
  // Metadata
  // ---------------------------------------------------------------------------

  /** `is_highlighted`: a subscriber, VIP, moderator or broadcaster, or a
      message that mentions the channel in any case. */
  predicate IsHighlighted(m: Msg) {
    m.userLevel in {UserLevel.Subscriber, UserLevel.Vip, UserLevel.Moderator, UserLevel.Broadcaster}
    || ContainsIgnoreCase(m.content, m.channel)
  }

  /** An empty channel name is contained in every message, so every message
      of such a channel is highlighted. */
  lemma EmptyChannelHighlights(m: Msg)
    requires m.channel == ""
    ensures IsHighlighted(m)
  {
    assert Lower(m.channel) == "";
    EmptyContained(Lower(m.content));
  }

  /** Staff, admins and global moderators are highlighted only by mention. */
  lemma StaffNotHighlightedByLevel(m: Msg)
    requires m.userLevel in {UserLevel.Staff, UserLevel.Admin, UserLevel.GlobalModerator, UserLevel.Normal}
    ensures IsHighlighted(m) <==> ContainsIgnoreCase(m.content, m.channel)
  {
  }

  /** A `u64` read from the raw data and cast with `as u32`. */
  function U32Field(raw: Json, key: string): (r: Option<nat>)
    ensures r.Some? <==> GetU64(raw, key).Some?
    ensures r.Some? ==> r.value < U32_BOUND && r.value == GetU64(raw, key).value % U32_BOUND
  {
    match GetU64(raw, key)
    case Some(v) => Some(v % U32_BOUND)
    case None => None
  }

  // parse_cheer_amount: the leftmost match of `(?i)(\d+)\s*bits?`.

  function DigitRunEnd(s: string, i: nat): (j: nat)
    requires i <= |s|
    ensures i <= j <= |s| && AllDigits(s[i..j]) && (j < |s| ==> !IsDigit(s[j]))
    decreases |s| - i
  {
    if i < |s| && IsDigit(s[i]) then
      var j := DigitRunEnd(s, i + 1);
      assert s[i..j] == [s[i]] + s[i + 1..j];
      j
    else i
  }

  function SpaceRunEnd(s: string, i: nat): (j: nat)
    requires i <= |s|
    ensures i <= j <= |s| && (j < |s| ==> !IsSpace(s[j]))
    decreases |s| - i
  {
    if i < |s| && IsSpace(s[i]) then SpaceRunEnd(s, i + 1) else i
  }

  /** "bit" in any case at position `k`. */
  predicate BitAt(s: string, k: nat) {
    k + 3 <= |s| && Lower(s[k..k + 3]) == "bit"
  }

  /** The pattern matches starting at `i`: digits, optional white space,
      then "bit". */
  predicate CheerAt(s: string, i: nat) {
    i < |s| && IsDigit(s[i]) && BitAt(s, SpaceRunEnd(s, DigitRunEnd(s, i)))
  }

  /** The leftmost position from `from` on where the pattern matches. */
  function FirstCheer(s: string, from: nat): (r: Option<nat>)
    requires from <= |s|
    ensures r.Some? ==> from <= r.value < |s| && CheerAt(s, r.value)
    ensures r.Some? ==> forall k :: from <= k < r.value ==> !CheerAt(s, k)
    ensures r.None? ==> forall k :: from <= k < |s| ==> !CheerAt(s, k)
    decreases |s| - from
  {
    if from == |s| then None
    else if CheerAt(s, from) then Some(from)
    else FirstCheer(s, from + 1)
  }

  lemma CheerAtRunStart(s: string, i: nat)
    requires 0 < i < |s| && IsDigit(s[i - 1]) && CheerAt(s, i)
    ensures CheerAt(s, i - 1)
  {
    assert DigitRunEnd(s, i - 1) == DigitRunEnd(s, i);
  }

  /** A match never starts inside a run of digits: the position before it
      would match as well, with the same digits' end. */
  lemma LeftmostStartsRun(s: string)
    ensures FirstCheer(s, 0).Some? ==> var i := FirstCheer(s, 0).value; i == 0 || !IsDigit(s[i - 1])
  {
    if FirstCheer(s, 0).Some? {
      var i := FirstCheer(s, 0).value;
      if i > 0 && IsDigit(s[i - 1]) {
        CheerAtRunStart(s, i);
        assert false;
      }
    }
  }

  /** `parse_cheer_amount`: the whole digit run of the leftmost match, parsed
      as a `u32`; no match or an overflowing number gives nothing. */
  function ParseCheerAmount(s: string): (r: Option<nat>)
    ensures r.Some? ==> r.value < U32_BOUND
    ensures FirstCheer(s, 0).None? ==> r.None?
  {
    match FirstCheer(s, 0)
    case None => None
    case Some(i) => ParseUnsigned(s[i..DigitRunEnd(s, i)], U32_BOUND)
  }

  lemma ParseCheerAmountExamples()
    ensures ParseCheerAmount("Cheer50bits") == Some(50)
    ensures ParseCheerAmount("no bits") == None
  {
    CheerFifty();
    NoCheer();
  }

  lemma CheerFifty()
    ensures ParseCheerAmount("Cheer50bits") == Some(50)
  {
    var s := "Cheer50bits";
    CheerFiftyMatch();
    assert s[5..7] == "50";
    FiftyValue();
  }

  /** In "Cheer50bits" the leftmost match is the run "50". */
  lemma CheerFiftyMatch()
    ensures FirstCheer("Cheer50bits", 0) == Some(5) && DigitRunEnd("Cheer50bits", 5) == 7
  {
    var s := "Cheer50bits";
    assert forall k :: 0 <= k < 5 ==> !IsDigit(s[k]);
    assert DigitRunEnd(s, 7) == 7;
    assert DigitRunEnd(s, 5) == 7;
    assert SpaceRunEnd(s, 7) == 7;
    assert s[7..10] == "bit";
    LowerBit();
    assert CheerAt(s, 5);
    FirstCheerIs(s, 0, 5);
  }

  lemma FiftyValue()
    ensures ParseUnsigned("50", U32_BOUND) == Some(50)
  {
    assert "50"[..1] == "5";
    assert DecimalValue("5") == 5;
  }

  lemma LowerBit()
    ensures Lower("bit") == "bit"
  {
    assert Lower("bit")[0] == 'b' && Lower("bit")[1] == 'i' && Lower("bit")[2] == 't';
  }

  /** The leftmost match is at `i` when it matches there and nowhere before. */
  lemma {:induction false} FirstCheerIs(s: string, from: nat, i: nat)
    requires from <= i < |s| && CheerAt(s, i)
    requires forall k :: from <= k < i ==> !CheerAt(s, k)
    ensures FirstCheer(s, from) == Some(i)
    decreases i - from
  {
    if from < i { FirstCheerIs(s, from + 1, i); }
  }

  lemma NoCheer()
    ensures ParseCheerAmount("no bits") == None
  {
    var t := "no bits";
    assert forall k :: 0 <= k < |t| ==> !IsDigit(t[k]);
    assert FirstCheer(t, 0) == None;
  }

  /** White space may separate the number from "bits". */
  lemma ParseCheerAmountSpaced()
    ensures ParseCheerAmount("cheer100 bits") == Some(100)
  {
    var s := "cheer100 bits";
    assert forall k :: 0 <= k < 5 ==> !IsDigit(s[k]);
    assert DigitRunEnd(s, 8) == 8;
    assert DigitRunEnd(s, 7) == 8;
    assert DigitRunEnd(s, 6) == 8;
    assert DigitRunEnd(s, 5) == 8;
    assert SpaceRunEnd(s, 9) == 9;
    assert SpaceRunEnd(s, 8) == 9;
    assert s[9..12] == "bit";
    LowerBit();
    assert CheerAt(s, 5);
    FirstCheerIs(s, 0, 5);
    assert s[5..8] == "100";
    HundredParses();
  }

  lemma HundredParses()
    ensures ParseUnsigned("100", U32_BOUND) == Some(100)
  {
    assert "100"[..2] == "10";
    assert "10"[..1] == "1";
    assert DecimalValue("1") == 1;
    assert DecimalValue("10") == 10;
  }

  /** `extract_cheer_amount`: only Cheer messages carry an amount. */
  function ExtractCheerAmount(m: Msg): (r: Option<nat>)
    ensures m.messageType != MappedMessageType.Cheer ==> r.None?
    ensures r.Some? ==> r.value < U32_BOUND
  {
    if m.messageType == MappedMessageType.Cheer then ParseCheerAmount(m.content) else None
  }

  /** `custom_data`: the fields of an object, nothing for any other value. */
  function CustomData(raw: Json): map<string, Json> {
    if raw.Object? then raw.fields else map[]
  }

  /** The metadata `map_data` computes from the processed message. */
  function Metadata(p: Msg): (md: MappedMetadata)
    ensures md.isAction == md.isMeMessage == StartsWith(p.content, "/me")
    ensures md.isWhisper <==> p.messageType == MappedMessageType.Whisper
    ensures md.isHighlighted == IsHighlighted(p) && !md.isDeleted
    ensures md.cheerAmount == ExtractCheerAmount(p)
    ensures md.subscriptionMonths == U32Field(p.rawData, "cumulative_months")
    ensures md.raidViewers == U32Field(p.rawData, "viewer_count")
    ensures md.timeoutDuration == U32Field(p.rawData, "ban_duration")
    ensures md.replyTo == GetStr(p.rawData, "reply_parent_msg_id") && md.threadId == GetStr(p.rawData, "thread_id")
  {
    MappedMetadata(
      isAction := StartsWith(p.content, "/me"),
      isWhisper := p.messageType == MappedMessageType.Whisper,
      isHighlighted := IsHighlighted(p),
      isMeMessage := StartsWith(p.content, "/me"),
      isDeleted := false,
      replyTo := GetStr(p.rawData, "reply_parent_msg_id"),
      threadId := GetStr(p.rawData, "thread_id"),
      cheerAmount := ExtractCheerAmount(p),
      subscriptionMonths := U32Field(p.rawData, "cumulative_months"),
      raidViewers := U32Field(p.rawData, "viewer_count"),
      timeoutDuration := U32Field(p.rawData, "ban_duration"),
      customData := CustomData(p.rawData))
  }

  /** What `map_data` makes of a message: the record of the message after
      its platform's field transformations, with the metadata computed from
      it, or the first transformation error. The id is a parameter. */
  function MappedOf(m: Msg, id: string, custom: map<string, Json>): Result<MappedMessage, MappingError> {
    match FieldTransformsAll(m, PlatformTransforms(custom, m.platform))
    case Err(e) => Err(e)
    case Ok(p) => Ok(MappedMessage(id, p.platform, p.channel, p.username, p.displayName, p.content,
      p.emotes, p.badges, p.timestamp, p.userLevel, p.messageType, Metadata(p)))
  }

  datatype DataMapperStats = DataMapperStats(totalPlatforms: nat, totalCustomMappings: nat, platformsWithMappings: set<string>)

  const TWITCH_USER_LEVELS: map<string, UserLevel> := map[
    "broadcaster" := UserLevel.Broadcaster, "moderator" := UserLevel.Moderator, "vip" := UserLevel.Vip,
    "subscriber" := UserLevel.Subscriber, "staff" := UserLevel.Staff, "admin" := UserLevel.Admin,
    "global_mod" := UserLevel.GlobalModerator, "" := UserLevel.Normal]

  const TWITCH_MESSAGE_TYPES: map<string, MappedMessageType> := map[
    "privmsg" := MappedMessageType.Normal, "action" := MappedMessageType.Action,
    "whisper" := MappedMessageType.Whisper, "notice" := MappedMessageType.System,
    "usernotice" := MappedMessageType.Subscription, "clearchat" := MappedMessageType.Timeout,
    "clearmsg" := MappedMessageType.Ban]

  const EMOTE_SOURCES: map<string, Connection.EmoteSource> := map[
    "twitch" := Connection.Twitch, "bttv" := Connection.BTTV, "ffz" := Connection.FFZ,
    "7tv" := Connection.SevenTV, "youtube" := Connection.YouTube, "kick" := Connection.Kick]

  class DataMapper {
    var userLevelMappings: map<string, map<string, UserLevel>>
    var messageTypeMappings: map<string, map<string, MappedMessageType>>
    var emoteSourceMappings: map<string, Connection.EmoteSource>
    var customMappings: map<string, Json>

    /** `DataMapper::new` with `initialize_default_mappings`: the Twitch tables
        and the emote-source names. */
    constructor ()
      ensures userLevelMappings == map["twitch" := TWITCH_USER_LEVELS]
      ensures messageTypeMappings == map["twitch" := TWITCH_MESSAGE_TYPES]
      ensures emoteSourceMappings == EMOTE_SOURCES && customMappings == map[]
    {
      userLevelMappings := map["twitch" := TWITCH_USER_LEVELS];
      messageTypeMappings := map["twitch" := TWITCH_MESSAGE_TYPES];
      emoteSourceMappings := EMOTE_SOURCES;
      customMappings := map[];
    }

    /** `register_custom_mappings`: replaces what the platform had. */
    method RegisterCustomMappings(platform: string, mappings: Json)
      modifies this
      ensures customMappings == old(customMappings)[platform := mappings]
      ensures userLevelMappings == old(userLevelMappings) && messageTypeMappings == old(messageTypeMappings)
      ensures emoteSourceMappings == old(emoteSourceMappings)
    {
      customMappings := customMappings[platform := mappings];
    }

    method RegisterUserLevelMappings(platform: string, mappings: map<string, UserLevel>)
      modifies this
      ensures userLevelMappings == old(userLevelMappings)[platform := mappings]
      ensures customMappings == old(customMappings) && messageTypeMappings == old(messageTypeMappings)
      ensures emoteSourceMappings == old(emoteSourceMappings)
    {
      userLevelMappings := userLevelMappings[platform := mappings];
    }

    method RegisterMessageTypeMappings(platform: string, mappings: map<string, MappedMessageType>)
      modifies this
      ensures messageTypeMappings == old(messageTypeMappings)[platform := mappings]
      ensures customMappings == old(customMappings) && userLevelMappings == old(userLevelMappings)
      ensures emoteSourceMappings == old(emoteSourceMappings)
    {
      messageTypeMappings := messageTypeMappings[platform := mappings];
    }

    /** `get_stats`: the platforms with user-level tables, and how many
        platforms have custom mappings. */
    function GetStats(): (s: DataMapperStats)
      reads this
      ensures s.totalPlatforms == |s.platformsWithMappings| && s.platformsWithMappings == userLevelMappings.Keys
      ensures s.totalCustomMappings == |customMappings|
    {
      DataMapperStats(|userLevelMappings.Keys|, |customMappings|, userLevelMappings.Keys)
    }

    /** The loop of `apply_custom_mappings`. */
    method ApplyCustomMappings(m: Msg) returns (r: Result<Msg, MappingError>)
      ensures r == FieldTransformsAll(m, PlatformTransforms(customMappings, m.platform))
    {
      var ts := PlatformTransforms(customMappings, m.platform);
      var result := m;
      for i := 0 to |ts|
        invariant FieldTransformsAll(m, ts) == FieldTransformsAll(result, ts[i..])
      {
        assert ts[i..][1..] == ts[i + 1..];
        var t := ts[i];
        if GetStr(t, "field").Some? && GetStr(t, "operation").Some? {
          var step := ApplyFieldTransformation(result, GetStr(t, "field").value, GetStr(t, "operation").value, t);
          if step.Err? {
            return Err(step.error);
          }
          result := step.value;
        }
      }
      return Ok(result);
    }

    /** `map_data`: the custom field transformations, then the mapped record
        with its metadata. The id comes from the clock and a random number,
        which are outside this model, so it is a parameter. */
    method MapData(m: Msg, id: string) returns (r: Result<MappedMessage, MappingError>)
      ensures r == MappedOf(m, id, customMappings)
      ensures r.Err? <==> FieldTransformsAll(m, PlatformTransforms(customMappings, m.platform)).Err?
      ensures r.Err? ==> r.error == FieldTransformsAll(m, PlatformTransforms(customMappings, m.platform)).error
      ensures r.Ok? ==>
        var p := FieldTransformsAll(m, PlatformTransforms(customMappings, m.platform)).value;
        && r.value.id == id
        && r.value.platform == m.platform && r.value.channel == m.channel
        && r.value.timestamp == m.timestamp && r.value.userLevel == m.userLevel
        && r.value.messageType == m.messageType
        && r.value.emotes == m.emotes && r.value.badges == m.badges
        && r.value.username == p.username && r.value.displayName == m.displayName
        && r.value.content == p.content
        && r.value.metadata == Metadata(p)
    {
      var processed := ApplyCustomMappings(m);
      if processed.Err? {
        return Err(processed.error);
      }
      var p := processed.value;
      FieldTransformsKeep(m, PlatformTransforms(customMappings, m.platform));
      var emotes := MapEmotes(p.emotes);
      var badges := MapBadges(p.badges);
      return Ok(MappedMessage(id, p.platform, p.channel, p.username, p.displayName, p.content,
        emotes, badges, p.timestamp, p.userLevel, p.messageType, Metadata(p)));
    }
  }

  /** `map_emotes`: every emote copied field by field, in order. */
  method MapEmotes(es: seq<Connection.Emote>) returns (r: seq<Connection.Emote>)
    ensures r == es
  {
    r := [];
    for i := 0 to |es|
      invariant r == es[..i]
    {
      var e := es[i];
      r := r + [Connection.Emote(e.id, e.name, e.source, e.positions, e.url, e.isAnimated, e.width, e.height, e.metadata)];
    }
  }

  /** `map_badges`: every badge copied field by field, in order. */
  method MapBadges(bs: seq<Connection.Badge>) returns (r: seq<Connection.Badge>)
    ensures r == bs
  {
    r := [];
    for i := 0 to |bs|
      invariant r == bs[..i]
    {
      var b := bs[i];
      r := r + [Connection.Badge(b.id, b.name, b.version, b.url, b.title, b.source)];
    }
  }
}
