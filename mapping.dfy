/** The mapping system of `src/mapping/mod.rs`: platform adapters turn a raw
    platform message into a standardised one, which the transformer and the
    data mapper then finish. The Twitch adapter reads the JSON shape Twitch
    messages arrive in; the YouTube and Kick adapters are placeholders. */
module Mapping {
  import opened Wrappers
  import opened Text
  import opened Json
  import Connection
  import opened MappingTypes
  import Transformer
  import DataMapper

  // ---------------------------------------------------------------------------
  // Twitch tables
  // ---------------------------------------------------------------------------

  /** The badge ids that name a user level, exactly as written. */
  function BadgeLevel(id: string): Option<UserLevel> {
    if id == "broadcaster" then Some(UserLevel.Broadcaster)
    else if id == "moderator" then Some(UserLevel.Moderator)
    else if id == "vip" then Some(UserLevel.Vip)
    else if id == "subscriber" then Some(UserLevel.Subscriber)
    else if id == "staff" then Some(UserLevel.Staff)
    else if id == "admin" then Some(UserLevel.Admin)
    else if id == "global_mod" then Some(UserLevel.GlobalModerator)
    else None
  }

  /** The badge ids that name a level are the named entries of the data
      mapper's Twitch table, with the same levels. */
  lemma BadgeLevelIsTable(id: string)
    ensures BadgeLevel(id).Some? <==> id in DataMapper.TWITCH_USER_LEVELS && id != ""
    ensures BadgeLevel(id).Some? ==> BadgeLevel(id).value == DataMapper.TWITCH_USER_LEVELS[id]
  {
  }

  /** `TwitchAdapter::map_user_level`: the data mapper's Twitch table, looked
      up in lower case, with Normal for anything else. */
  function MapUserLevel(platformLevel: string): (r: UserLevel)
    ensures var t := Lower(platformLevel);
      r == if t in DataMapper.TWITCH_USER_LEVELS then DataMapper.TWITCH_USER_LEVELS[t] else UserLevel.Normal
  {
    BadgeLevelIsTable(Lower(platformLevel));
    match BadgeLevel(Lower(platformLevel))
    case Some(level) => level
    case None => UserLevel.Normal
  }

  /** `TwitchAdapter::map_message_type`: the data mapper's table of IRC
      commands, looked up in lower case, with Unknown for anything else. */
  function MapMessageType(platformType: string): (r: MappedMessageType)
    ensures var t := Lower(platformType);
      r == if t in DataMapper.TWITCH_MESSAGE_TYPES then DataMapper.TWITCH_MESSAGE_TYPES[t] else MappedMessageType.Unknown
  {
    var t := Lower(platformType);
    if t == "privmsg" then MappedMessageType.Normal
    else if t == "action" then MappedMessageType.Action
    else if t == "whisper" then MappedMessageType.Whisper
    else if t == "notice" then MappedMessageType.System
    else if t == "usernotice" then MappedMessageType.Subscription
    else if t == "clearchat" then MappedMessageType.Timeout
    else if t == "clearmsg" then MappedMessageType.Ban
    else MappedMessageType.Unknown
  }

  /** Both tables ignore case: a name and its lower-case form map alike. */
  lemma TwitchTablesIgnoreCase(s: string)
    ensures MapUserLevel(Lower(s)) == MapUserLevel(s)
    ensures MapMessageType(Lower(s)) == MapMessageType(s)
  {
    LowerIdempotent(s);
  }

  // ---------------------------------------------------------------------------
  // Extraction from raw Twitch data
  // ---------------------------------------------------------------------------

  /** The level a badge names through its string `id`, if any. */
  function BadgeIdLevel(badge: Json): Option<UserLevel> {
    match GetStr(badge, "id")
    case Some(id) => BadgeLevel(id)
    case None => None
  }

  /** The level of the first badge whose id names one, Normal if none does. */
  function FirstBadgeLevel(badges: seq<Json>): UserLevel
    decreases |badges|
  {
    if badges == [] then UserLevel.Normal
    else match BadgeIdLevel(badges[0])
      case Some(level) => level
      case None => FirstBadgeLevel(badges[1..])
  }

  /** The first badge naming a level decides it; with none, the user is
      Normal (no badge names Normal). */
  lemma {:induction false} FirstBadgeLevelIsFirst(badges: seq<Json>)
    ensures FirstBadgeLevel(badges) == UserLevel.Normal <==> forall i :: 0 <= i < |badges| ==> BadgeIdLevel(badges[i]).None?
    ensures FirstBadgeLevel(badges) != UserLevel.Normal ==>
      exists i :: 0 <= i < |badges| && BadgeIdLevel(badges[i]) == Some(FirstBadgeLevel(badges))
        && (forall j :: 0 <= j < i ==> BadgeIdLevel(badges[j]).None?)
    decreases |badges|
  {
    if badges != [] {
      FirstBadgeLevelIsFirst(badges[1..]);
      if BadgeIdLevel(badges[0]).None? {
        if FirstBadgeLevel(badges) != UserLevel.Normal {
          var i :| 0 <= i < |badges[1..]| && BadgeIdLevel(badges[1..][i]) == Some(FirstBadgeLevel(badges[1..]))
            && forall j :: 0 <= j < i ==> BadgeIdLevel(badges[1..][j]).None?;
          assert BadgeIdLevel(badges[i + 1]) == Some(FirstBadgeLevel(badges));
          forall j | 0 <= j < i + 1 ensures BadgeIdLevel(badges[j]).None? {
            if j > 0 { assert badges[j] == badges[1..][j - 1]; }
          }
        }
        if forall i :: 0 <= i < |badges[1..]| ==> BadgeIdLevel(badges[1..][i]).None? {
          forall i | 0 <= i < |badges| ensures BadgeIdLevel(badges[i]).None? {
            if i > 0 { assert badges[i] == badges[1..][i - 1]; }
          }
        }
      } else {
        assert BadgeIdLevel(badges[0]).value != UserLevel.Normal;
      }
    }
  }

  datatype TwitchUser = TwitchUser(username: string, displayName: Option<string>, level: UserLevel)

  /** What `extract_user_from_twitch_message` finds under `user`. */
  function TwitchUserOf(raw: Json): (u: TwitchUser)
    ensures raw.Get("user").None? ==> u == TwitchUser("unknown", None, UserLevel.Normal)
    ensures raw.Get("user").Some? ==> u.displayName == GetStr(raw.Get("user").value, "display_name")
  {
    match raw.Get("user")
    case None => TwitchUser("unknown", None, UserLevel.Normal)
    case Some(user) =>
      var level := match user.Get("badges")
        case Some(Array(badges)) => FirstBadgeLevel(badges)
        case _ => UserLevel.Normal;
      TwitchUser(GetStr(user, "name").GetOr("unknown"), GetStr(user, "display_name"), level)
  }

  /** `extract_user_from_twitch_message`, whose badge loop returns at the
      first badge that names a level. */
  method ExtractUserFromTwitchMessage(raw: Json) returns (u: TwitchUser)
    ensures u == TwitchUserOf(raw)
  {
    var user := raw.Get("user");
    if user.None? {
      return TwitchUser("unknown", None, UserLevel.Normal);
    }
    var username := GetStr(user.value, "name").GetOr("unknown");
    var displayName := GetStr(user.value, "display_name");
    var badges := user.value.Get("badges");
    if badges.Some? && badges.value.Array? {
      var items := badges.value.items;
      for i := 0 to |items|
        invariant FirstBadgeLevel(items) == FirstBadgeLevel(items[i..])
      {
        assert items[i..][0] == items[i] && items[i..][1..] == items[i + 1..];
        var id := GetStr(items[i], "id");
        if id.Some? && BadgeLevel(id.value).Some? {
          return TwitchUser(username, displayName, BadgeLevel(id.value).value);
        }
      }
    }
    return TwitchUser(username, displayName, UserLevel.Normal);
  }

  /** The positions that have both a numeric start and end. */
  function TwitchPositions(items: seq<Json>): (r: seq<Connection.TextPosition>)
    ensures |r| <= |items|
  {
    if items == [] then []
    else
      var head := if GetU64(items[0], "start").Some? && GetU64(items[0], "end").Some?
        then [Connection.TextPosition(GetU64(items[0], "start").value, GetU64(items[0], "end").value)] else [];
      head + TwitchPositions(items[1..])
  }

  /** The emote an entry with an `id` and a `name` stands for: a Twitch emote
      of 28x28 pixels whose emote set is its id. */
  function TwitchEmote(id: string, name: string, entry: Json): (e: Connection.Emote)
    ensures e.id == id && e.name == name && e.source == Connection.Twitch && e.url.None?
    ensures e.width == Some(28) && e.height == Some(28) && e.metadata.emoteSetId == Some(id)
  {
    var positions := match entry.Get("positions")
      case Some(Array(ps)) => TwitchPositions(ps)
      case _ => [];
    Connection.Emote(id, name, Connection.Twitch, positions, None, false, Some(28), Some(28),
      Connection.EmoteMetadata(false, false, Some(id), None))
  }

  predicate HasIdAndName(entry: Json) { GetStr(entry, "id").Some? && GetStr(entry, "name").Some? }

  /** What one entry of `emotes` contributes: its emote, or nothing. */
  function EmoteEntry(entry: Json): seq<Connection.Emote> {
    if HasIdAndName(entry) then [TwitchEmote(GetStr(entry, "id").value, GetStr(entry, "name").value, entry)] else []
  }

  /** The entries with a string id and name, each as an emote, in order. */
  function TwitchEmotesOf(entries: seq<Json>): (r: seq<Connection.Emote>)
    ensures |r| <= |entries|
    decreases |entries|
  {
    if entries == [] then [] else EmoteEntry(entries[0]) + TwitchEmotesOf(entries[1..])
  }

  /** The emotes under the `emotes` array of a raw message. */
  function TwitchEmotesIn(raw: Json): seq<Connection.Emote> {
    match raw.Get("emotes")
    case Some(Array(items)) => TwitchEmotesOf(items)
    case _ => []
  }

  /** An entry gives an emote exactly when it has a string id and name: every
      extracted emote comes from such an entry, and every such entry is
      extracted. */
  lemma {:induction false} TwitchEmotesMembers(entries: seq<Json>)
    ensures forall e :: e in TwitchEmotesOf(entries) ==>
      exists i :: 0 <= i < |entries| && HasIdAndName(entries[i]) && e == EmoteEntry(entries[i])[0]
    ensures forall i :: 0 <= i < |entries| && HasIdAndName(entries[i]) ==> EmoteEntry(entries[i])[0] in TwitchEmotesOf(entries)
    decreases |entries|
  {
    if entries != [] {
      TwitchEmotesMembers(entries[1..]);
      forall e | e in TwitchEmotesOf(entries)
        ensures exists i :: 0 <= i < |entries| && HasIdAndName(entries[i]) && e == EmoteEntry(entries[i])[0]
      {
        if e !in TwitchEmotesOf(entries[1..]) {
          assert e in EmoteEntry(entries[0]);
        } else {
          var i :| 0 <= i < |entries[1..]| && HasIdAndName(entries[1..][i]) && e == EmoteEntry(entries[1..][i])[0];
          assert entries[1..][i] == entries[i + 1];
        }
      }
      forall i | 0 <= i < |entries| && HasIdAndName(entries[i])
        ensures EmoteEntry(entries[i])[0] in TwitchEmotesOf(entries)
      {
        if i > 0 { assert entries[i] == entries[1..][i - 1]; }
      }
    }
  }

  lemma EmotesStep(items: seq<Json>, i: nat)
    requires i < |items|
    ensures TwitchEmotesOf(items[i..]) == EmoteEntry(items[i]) + TwitchEmotesOf(items[i + 1..])
  {
    assert items[i..][0] == items[i] && items[i..][1..] == items[i + 1..];
  }

  /** `extract_emotes_from_twitch`. */
  method ExtractEmotesFromTwitch(raw: Json) returns (emotes: seq<Connection.Emote>)
    ensures emotes == TwitchEmotesIn(raw)
  {
    emotes := [];
    var data := raw.Get("emotes");
    if data.Some? && data.value.Array? {
      var items := data.value.items;
      for i := 0 to |items|
        invariant emotes + TwitchEmotesOf(items[i..]) == TwitchEmotesOf(items)
      {
        var next := ExtractEmoteEntry(items[i]);
        EmotesStep(items, i);
        assert emotes + TwitchEmotesOf(items[i..]) == (emotes + next) + TwitchEmotesOf(items[i + 1..]);
        emotes := emotes + next;
      }
      assert items[|items|..] == [];
    }
  }

  /** The body of the loop of `extract_emotes_from_twitch`. */
  method ExtractEmoteEntry(entry: Json) returns (r: seq<Connection.Emote>)
    ensures r == EmoteEntry(entry)
  {
    var id, name := GetStr(entry, "id"), GetStr(entry, "name");
    r := [];
    if id.Some? && name.Some? {
      r := [TwitchEmote(id.value, name.value, entry)];
    }
  }

  const TWITCH_BADGE_CDN := "https://static-cdn.jtvnw.net/badges/v1/"

  /** What one entry of `badges` contributes: a badge when it has a string id
      and version, nothing otherwise. */
  function BadgeEntry(entry: Json): seq<Connection.Badge> {
    if GetStr(entry, "id").Some? && GetStr(entry, "version").Some? then
      var id, version := GetStr(entry, "id").value, GetStr(entry, "version").value;
      [Connection.Badge(id, id, version, Some(TWITCH_BADGE_CDN + id + "/" + version), None, Connection.Twitch)]
    else []
  }

  /** The badges with a string id and version, in order; the id is also the
      name, and the URL names both. */
  function TwitchBadgesOf(entries: seq<Json>): (r: seq<Connection.Badge>)
    ensures |r| <= |entries|
    decreases |entries|
  {
    if entries == [] then [] else BadgeEntry(entries[0]) + TwitchBadgesOf(entries[1..])
  }

  /** Every extracted badge is a Twitch badge named by its id, whose URL names
      its id and version on the badge CDN. */
  lemma {:induction false} TwitchBadgesShape(entries: seq<Json>)
    ensures forall b :: b in TwitchBadgesOf(entries) ==>
      b.name == b.id && b.source == Connection.Twitch && b.url == Some(TWITCH_BADGE_CDN + b.id + "/" + b.version)
    decreases |entries|
  {
    if entries != [] {
      TwitchBadgesShape(entries[1..]);
    }
  }

  /** The badges under the `badges` array of a raw message. */
  function TwitchBadgesIn(raw: Json): seq<Connection.Badge> {
    match raw.Get("badges")
    case Some(Array(items)) => TwitchBadgesOf(items)
    case _ => []
  }

  /** An entry without a string id or version gives no badge. */
  lemma {:induction false} TwitchBadgesSkip(entries: seq<Json>)
    ensures (forall i :: 0 <= i < |entries| ==> GetStr(entries[i], "id").None? || GetStr(entries[i], "version").None?)
      ==> TwitchBadgesOf(entries) == []
    ensures |TwitchBadgesOf(entries)| == |entries| <==>
      forall i :: 0 <= i < |entries| ==> GetStr(entries[i], "id").Some? && GetStr(entries[i], "version").Some?
    decreases |entries|
  {
    if entries != [] {
      TwitchBadgesSkip(entries[1..]);
      assert forall i :: 1 <= i < |entries| ==> entries[i] == entries[1..][i - 1];
    }
  }

  lemma BadgesStep(items: seq<Json>, i: nat)
    requires i < |items|
    ensures TwitchBadgesOf(items[i..]) == BadgeEntry(items[i]) + TwitchBadgesOf(items[i + 1..])
  {
    assert items[i..][0] == items[i] && items[i..][1..] == items[i + 1..];
  }

  /** `TwitchAdapter::extract_badges`. */
  method ExtractBadges(raw: Json) returns (badges: seq<Connection.Badge>)
    ensures badges == TwitchBadgesIn(raw)
  {
    badges := [];
    var data := raw.Get("badges");
    if data.Some? && data.value.Array? {
      var items := data.value.items;
      for i := 0 to |items|
        invariant badges + TwitchBadgesOf(items[i..]) == TwitchBadgesOf(items)
      {
        var next := ExtractBadgeEntry(items[i]);
        BadgesStep(items, i);
        assert badges + TwitchBadgesOf(items[i..]) == (badges + next) + TwitchBadgesOf(items[i + 1..]);
        badges := badges + next;
      }
      assert items[|items|..] == [];
    }
  }

  /** The body of the loop of `extract_badges`. */
  method ExtractBadgeEntry(entry: Json) returns (r: seq<Connection.Badge>)
    ensures r == BadgeEntry(entry)
  {
    var id, version := GetStr(entry, "id"), GetStr(entry, "version");
    r := [];
    if id.Some? && version.Some? {
      r := [Connection.Badge(id.value, id.value, version.value,
        Some(TWITCH_BADGE_CDN + id.value + "/" + version.value), None, Connection.Twitch)];
    }
  }

  // ---------------------------------------------------------------------------
  // Adapters and the mapping system
  // ---------------------------------------------------------------------------

  datatype Adapter = TwitchAdapter | YouTubeAdapter | KickAdapter

  function PlatformName(a: Adapter): string {
    match a
    case TwitchAdapter => "twitch"
    case YouTubeAdapter => "youtube"
    case KickAdapter => "kick"
  }

  /** `map_user_level` of each adapter: the placeholders know no levels. */
  function AdapterUserLevel(a: Adapter, platformLevel: string): (r: UserLevel)
    ensures a != TwitchAdapter ==> r == UserLevel.Normal
    ensures r == UserLevel.Normal || BadgeLevel(Lower(platformLevel)) == Some(r)
  {
    if a == TwitchAdapter then MapUserLevel(platformLevel) else UserLevel.Normal
  }

  /** `map_message_type` of each adapter: the placeholders call everything a
      normal message. */
  function AdapterMessageType(a: Adapter, platformType: string): (r: MappedMessageType)
    ensures a != TwitchAdapter ==> r == MappedMessageType.Normal
    ensures r == MappedMessageType.Unknown <==> a == TwitchAdapter && Lower(platformType) !in DataMapper.TWITCH_MESSAGE_TYPES
  {
    if a == TwitchAdapter then MapMessageType(platformType) else MappedMessageType.Normal
  }

  /** The standardised message each adapter's `transform_message` makes of a
      raw message. */
  function Standardized(a: Adapter, raw: RawPlatformMessage): StandardizedMessage {
    match a
    case TwitchAdapter =>
      var user := TwitchUserOf(raw.rawData);
      var msgType := if GetStr(raw.rawData, "type").Some? then MapMessageType(GetStr(raw.rawData, "type").value)
                     else MappedMessageType.Normal;
      StandardizedMessage(raw.platform, raw.channel, user.username, user.displayName,
        GetStr(raw.rawData, "message").GetOr(""), TwitchEmotesIn(raw.rawData), TwitchBadgesIn(raw.rawData),
        raw.timestamp, user.level, msgType, raw.rawData)
    case YouTubeAdapter =>
      StandardizedMessage(raw.platform, raw.channel, "youtube_user", Some("YouTube User"),
        "YouTube message", [], [], raw.timestamp, UserLevel.Normal, MappedMessageType.Normal, raw.rawData)
    case KickAdapter =>
      StandardizedMessage(raw.platform, raw.channel, "kick_user", Some("Kick User"),
        "Kick message", [], [], raw.timestamp, UserLevel.Normal, MappedMessageType.Normal, raw.rawData)
  }

  /** `transform_message` of each adapter. Twitch reads user, content,
      emotes, badges and type from the raw data, defaulting the content to ""
      and the type to Normal; the placeholders answer with fixed text. */
  method TransformMessage(a: Adapter, raw: RawPlatformMessage) returns (r: Result<StandardizedMessage, MappingError>)
    ensures r == Ok(Standardized(a, raw))
    ensures r.value.platform == raw.platform && r.value.channel == raw.channel
    ensures r.value.timestamp == raw.timestamp && r.value.rawData == raw.rawData
    ensures a == TwitchAdapter ==>
      && r.value.content == GetStr(raw.rawData, "message").GetOr("")
      && r.value.username == TwitchUserOf(raw.rawData).username
      && r.value.displayName == TwitchUserOf(raw.rawData).displayName
      && r.value.userLevel == TwitchUserOf(raw.rawData).level
      && r.value.emotes == TwitchEmotesIn(raw.rawData)
      && r.value.badges == TwitchBadgesIn(raw.rawData)
      && r.value.messageType == (if GetStr(raw.rawData, "type").Some? then MapMessageType(GetStr(raw.rawData, "type").value)
                                 else MappedMessageType.Normal)
    ensures a == YouTubeAdapter ==>
      && r.value.username == "youtube_user" && r.value.displayName == Some("YouTube User")
      && r.value.content == "YouTube message"
    ensures a == KickAdapter ==>
      && r.value.username == "kick_user" && r.value.displayName == Some("Kick User")
      && r.value.content == "Kick message"
    ensures a != TwitchAdapter ==>
      && r.value.emotes == [] && r.value.badges == [] && r.value.userLevel == UserLevel.Normal
      && r.value.messageType == MappedMessageType.Normal
  {
    match a {
      case TwitchAdapter =>
        var user := ExtractUserFromTwitchMessage(raw.rawData);
        var content := GetStr(raw.rawData, "message").GetOr("");
        var emotes := ExtractEmotesFromTwitch(raw.rawData);
        var badges := ExtractBadges(raw.rawData);
        var msgType := if GetStr(raw.rawData, "type").Some? then MapMessageType(GetStr(raw.rawData, "type").value)
                       else MappedMessageType.Normal;
        return Ok(StandardizedMessage(raw.platform, raw.channel, user.username, user.displayName, content,
          emotes, badges, raw.timestamp, user.level, msgType, raw.rawData));
      case YouTubeAdapter =>
        return Ok(StandardizedMessage(raw.platform, raw.channel, "youtube_user", Some("YouTube User"),
          "YouTube message", [], [], raw.timestamp, UserLevel.Normal, MappedMessageType.Normal, raw.rawData));
      case KickAdapter =>
        return Ok(StandardizedMessage(raw.platform, raw.channel, "kick_user", Some("Kick User"),
          "Kick message", [], [], raw.timestamp, UserLevel.Normal, MappedMessageType.Normal, raw.rawData));
    }
  }

  /** What `map_message` gives once the platform's adapter has produced `s`:
      the transformer's normalisation and system-message filter, its custom
      mappings in the iteration order `order`, then the data mapper with its
      custom field transformations `custom`. */
  function Mapped(s: StandardizedMessage, config: MappingConfig, order: seq<string>, re: Transformer.RegexReplace,
                  id: string, custom: map<string, Json>): Result<MappedMessage, MappingError>
    requires forall i :: 0 <= i < |order| ==> order[i] in config.customMappings
  {
    var p := Transformer.Prepared(s, config);
    if config.filterSystemMessages && Transformer.IsSystemMessage(p) then
      Err(ValidationError("System message filtered out"))
    else match Transformer.ApplyAlong(p, config.customMappings, order, re)
      case Err(e) => Err(e)
      case Ok(t) => DataMapper.MappedOf(t, id, custom)
  }

  /** A mapped message keeps the adapter's platform, badges, time, level and
      type, carries the normalised channel and the given id, and its metadata
      is computed from its own content and raw data. */
  lemma MappedFrame(s: StandardizedMessage, config: MappingConfig, order: seq<string>, re: Transformer.RegexReplace,
                    id: string, custom: map<string, Json>)
    requires forall i :: 0 <= i < |order| ==> order[i] in config.customMappings
    ensures var r := Mapped(s, config, order, re, id, custom);
      r.Ok? ==>
        && r.value.id == id && r.value.platform == s.platform && r.value.badges == s.badges
        && r.value.channel == (if config.normalizeChannels then Lower(s.channel) else s.channel)
        && r.value.timestamp == s.timestamp && r.value.userLevel == s.userLevel
        && r.value.messageType == s.messageType
        && exists t: StandardizedMessage :: t.rawData == s.rawData && t.content == r.value.content && r.value.metadata == DataMapper.Metadata(t)
  {
    var p := Transformer.Prepared(s, config);
    if !(config.filterSystemMessages && Transformer.IsSystemMessage(p)) {
      var along := Transformer.ApplyAlong(p, config.customMappings, order, re);
      Transformer.ApplyAlongKeepsFrame(p, config.customMappings, order, re);
      if along.Ok? {
        var t := along.value;
        var ts := DataMapper.PlatformTransforms(custom, t.platform);
        DataMapper.FieldTransformsKeep(t, ts);
        if DataMapper.FieldTransformsAll(t, ts).Ok? {
          var q := DataMapper.FieldTransformsAll(t, ts).value;
          assert q.rawData == s.rawData && q.content == Mapped(s, config, order, re, id, custom).value.content;
        }
      }
    }
  }

  /** With no custom mappings and no field transformations, a message that is
      not filtered out is mapped as the adapter made it, only normalised. */
  lemma MappedPlain(s: StandardizedMessage, config: MappingConfig, re: Transformer.RegexReplace, id: string, custom: map<string, Json>)
    requires config.customMappings == map[] && DataMapper.PlatformTransforms(custom, s.platform) == []
    requires !(config.filterSystemMessages && Transformer.IsSystemMessage(Transformer.Prepared(s, config)))
    ensures var p := Transformer.Prepared(s, config);
      Mapped(s, config, [], re, id, custom)
        == Ok(MappedMessage(id, s.platform, p.channel, p.username, p.displayName, s.content, s.emotes, s.badges,
                            s.timestamp, s.userLevel, s.messageType, DataMapper.Metadata(p)))
  {
    var p := Transformer.Prepared(s, config);
    assert DataMapper.FieldTransformsAll(p, []) == Ok(p);
  }

  /** A Twitch chat line under the default mapping configuration, with no
      custom mappings: the sender's lower-case name, the message text, the
      emotes and badges of the raw data, and the sender's level, are what
      `map_message` reports; a system notice is not filtered out. */
  lemma DefaultTwitchMapping(raw: RawPlatformMessage, re: Transformer.RegexReplace, id: string, custom: map<string, Json>)
    requires DataMapper.PlatformTransforms(custom, raw.platform) == []
    ensures var r := Mapped(Standardized(TwitchAdapter, raw), DEFAULT_MAPPING_CONFIG, [], re, id, custom);
      && r.Ok?
      && r.value.username == Lower(TwitchUserOf(raw.rawData).username)
      && r.value.channel == Lower(raw.channel)
      && r.value.content == GetStr(raw.rawData, "message").GetOr("")
      && r.value.emotes == TwitchEmotesIn(raw.rawData) && r.value.badges == TwitchBadgesIn(raw.rawData)
      && r.value.userLevel == TwitchUserOf(raw.rawData).level
  {
    var s := Standardized(TwitchAdapter, raw);
    MappedPlain(s, DEFAULT_MAPPING_CONFIG, re, id, custom);
  }

  const DEFAULT_ADAPTERS: map<string, Adapter> :=
    map["twitch" := TwitchAdapter, "youtube" := YouTubeAdapter, "kick" := KickAdapter]

  /** `MappingSystem`: the adapters by platform name, the transformer, the
      data mapper and the configuration. */
  class MappingSystem {
    var dataMapper: DataMapper.DataMapper
    var messageTransformer: Transformer.MessageTransformer
    var platformAdapters: map<string, Adapter>
    var config: MappingConfig

    /** `MappingSystem::new`: the Twitch, YouTube and Kick adapters. */
    constructor (config: MappingConfig)
      ensures platformAdapters == DEFAULT_ADAPTERS && this.config == config
      ensures fresh(dataMapper) && fresh(messageTransformer)
      ensures dataMapper.customMappings == map[]
    {
      dataMapper := new DataMapper.DataMapper();
      messageTransformer := new Transformer.MessageTransformer();
      platformAdapters := DEFAULT_ADAPTERS;
      this.config := config;
    }

    /** `map_message`: the adapter of the platform, then the transformer, then
        the data mapper. The mapped message's id and the regex engine are
        parameters. */
    method MapMessage(raw: RawPlatformMessage, id: string, re: Transformer.RegexReplace)
      returns (r: Result<MappedMessage, MappingError>)
      ensures raw.platform !in platformAdapters <==> r == Err(UnsupportedPlatform(raw.platform))
      ensures r.Err? && r.error.UnsupportedPlatform? ==> raw.platform !in platformAdapters
      ensures raw.platform in platformAdapters ==>
        exists order :: Enumerates(order, config.customMappings)
          && r == Mapped(Standardized(platformAdapters[raw.platform], raw), config, order, re, id, dataMapper.customMappings)
      ensures r.Ok? ==>
        && r.value.id == id && r.value.platform == raw.platform && r.value.timestamp == raw.timestamp
        && r.value.channel == (if config.normalizeChannels then Lower(raw.channel) else raw.channel)
    {
      if raw.platform !in platformAdapters {
        return Err(UnsupportedPlatform(raw.platform));
      }
      var standardized := TransformMessage(platformAdapters[raw.platform], raw);
      var transformed := messageTransformer.Transform(standardized.value, config, re);
      ghost var order := PipelineOrder(standardized.value, config, re, transformed);
      if transformed.Err? {
        assert !transformed.error.UnsupportedPlatform? by { TransformErrors(standardized.value, config, re, transformed); }
        return Err(transformed.error);
      }
      r := dataMapper.MapData(transformed.value, id);
      if r.Err? {
        assert !r.error.UnsupportedPlatform? by {
          DataMapperErrors(transformed.value, DataMapper.PlatformTransforms(dataMapper.customMappings, transformed.value.platform));
        }
      }
      assert r == Mapped(standardized.value, config, order, re, id, dataMapper.customMappings);
    }

    /** `register_adapter`: replaces any adapter the platform had. */
    method RegisterAdapter(platform: string, adapter: Adapter)
      modifies this
      ensures platformAdapters == old(platformAdapters)[platform := adapter]
      ensures config == old(config) && dataMapper == old(dataMapper) && messageTransformer == old(messageTransformer)
    {
      platformAdapters := platformAdapters[platform := adapter];
    }

    /** `supported_platforms`, in no particular order. */
    function SupportedPlatforms(): (s: set<string>)
      reads this
      ensures forall p :: p in s <==> p in platformAdapters
    {
      platformAdapters.Keys
    }

    /** `update_config`. */
    method UpdateConfig(config: MappingConfig)
      modifies this
      ensures this.config == config && platformAdapters == old(platformAdapters)
      ensures dataMapper == old(dataMapper) && messageTransformer == old(messageTransformer)
    {
      this.config := config;
    }
  }

  /** An iteration order of the custom mappings under which the transformer's
      verdict `r` is the one `Mapped` describes. */
  lemma PipelineOrder(m: StandardizedMessage, config: MappingConfig, re: Transformer.RegexReplace,
                      r: Result<StandardizedMessage, MappingError>) returns (order: seq<string>)
    requires config.filterSystemMessages && Transformer.IsSystemMessage(Transformer.Prepared(m, config)) ==>
      r == Err(ValidationError("System message filtered out"))
    requires !(config.filterSystemMessages && Transformer.IsSystemMessage(Transformer.Prepared(m, config))) ==>
      exists order :: Enumerates(order, config.customMappings)
        && r == Transformer.ApplyAlong(Transformer.Prepared(m, config), config.customMappings, order, re)
    ensures Enumerates(order, config.customMappings)
    ensures !(config.filterSystemMessages && Transformer.IsSystemMessage(Transformer.Prepared(m, config))) ==>
      r == Transformer.ApplyAlong(Transformer.Prepared(m, config), config.customMappings, order, re)
  {
    if config.filterSystemMessages && Transformer.IsSystemMessage(Transformer.Prepared(m, config)) {
      Transformer.EnumerationExists(config.customMappings);
      order :| Enumerates(order, config.customMappings);
    } else {
      order :| Enumerates(order, config.customMappings)
        && r == Transformer.ApplyAlong(Transformer.Prepared(m, config), config.customMappings, order, re);
    }
  }

  /** No custom transform reports an unsupported platform. */
  lemma TransformErrors(m: StandardizedMessage, config: MappingConfig, re: Transformer.RegexReplace, r: Result<StandardizedMessage, MappingError>)
    requires config.filterSystemMessages && Transformer.IsSystemMessage(Transformer.Prepared(m, config)) ==>
      r == Err(ValidationError("System message filtered out"))
    requires !(config.filterSystemMessages && Transformer.IsSystemMessage(Transformer.Prepared(m, config))) ==>
      exists order :: Enumerates(order, config.customMappings)
        && r == Transformer.ApplyAlong(Transformer.Prepared(m, config), config.customMappings, order, re)
    ensures r.Err? ==> !r.error.UnsupportedPlatform?
  {
    if !(config.filterSystemMessages && Transformer.IsSystemMessage(Transformer.Prepared(m, config))) {
      var order :| Enumerates(order, config.customMappings)
        && r == Transformer.ApplyAlong(Transformer.Prepared(m, config), config.customMappings, order, re);
      AlongErrors(Transformer.Prepared(m, config), config.customMappings, order, re);
    }
  }

  lemma {:induction false} AllErrors(kind: Transformer.TransformKind, m: StandardizedMessage, ts: seq<Json>, re: Transformer.RegexReplace)
    ensures Transformer.ApplyAll(kind, m, ts, re).Err? ==> !Transformer.ApplyAll(kind, m, ts, re).error.UnsupportedPlatform?
    decreases |ts|
  {
    if ts != [] {
      var step := Transformer.ApplyOne(kind, m, ts[0], re);
      if step.Ok? { AllErrors(kind, step.value, ts[1..], re); }
    }
  }

  lemma {:induction false} AlongErrors(m: StandardizedMessage, mappings: map<string, Json>, order: seq<string>, re: Transformer.RegexReplace)
    requires forall i :: 0 <= i < |order| ==> order[i] in mappings
    ensures var r := Transformer.ApplyAlong(m, mappings, order, re); r.Err? ==> !r.error.UnsupportedPlatform?
    decreases |order|
  {
    if order != [] {
      var step := Transformer.ApplyMapping(m, order[0], mappings[order[0]], re);
      MappingErrors(m, order[0], mappings[order[0]], re);
      if step.Ok? { AlongErrors(step.value, mappings, order[1..], re); }
    }
  }

  lemma MappingErrors(m: StandardizedMessage, key: string, v: Json, re: Transformer.RegexReplace)
    ensures var r := Transformer.ApplyMapping(m, key, v, re); r.Err? ==> !r.error.UnsupportedPlatform?
  {
    if v.Array? {
      if key == "content_transforms" { AllErrors(Transformer.ContentTransforms, m, v.items, re); }
      else if key == "user_transforms" { AllErrors(Transformer.UserTransforms, m, v.items, re); }
      else if key == "emote_transforms" { AllErrors(Transformer.EmoteTransforms, m, v.items, re); }
    }
  }

  lemma {:induction false} DataMapperErrors(m: StandardizedMessage, ts: seq<Json>)
    ensures var r := DataMapper.FieldTransformsAll(m, ts); r.Err? ==> r.error.ValidationError?
    decreases |ts|
  {
    if ts != [] {
      if GetStr(ts[0], "field").Some? && GetStr(ts[0], "operation").Some? {
        var step := DataMapper.ApplyFieldTransformation(m, GetStr(ts[0], "field").value, GetStr(ts[0], "operation").value, ts[0]);
        if step.Ok? { DataMapperErrors(step.value, ts[1..]); }
      } else {
        DataMapperErrors(m, ts[1..]);
      }
    }
  }
}
