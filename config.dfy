/** The overlay's configuration, `src/config.rs`: the configuration tree, its
    defaults, the validation every load and save runs, and the lookups the
    rest of the program uses. Reading and writing files and the JSON
    (de)serialisation are not modelled; the display opacity, a float, is
    left out of `DisplayConfig`. */
module Config {
  import opened Wrappers
  import opened Json

  datatype PlatformType = Twitch | YouTube | Kick | Trovo | Facebook

  /** `Display for PlatformType`, which is also the lowercase serde name. */
  function PlatformTypeName(t: PlatformType): string {
    match t
    case Twitch => "twitch"
    case YouTube => "youtube"
    case Kick => "kick"
    case Trovo => "trovo"
    case Facebook => "facebook"
  }

  /** The serde side of the same names. */
  function ParsePlatformType(s: string): Option<PlatformType> {
    if s == "twitch" then Some(Twitch)
    else if s == "youtube" then Some(YouTube)
    else if s == "kick" then Some(Kick)
    else if s == "trovo" then Some(Trovo)
    else if s == "facebook" then Some(Facebook)
    else None
  }

  /** Every platform type reads back from its displayed name, and only a
      displayed name reads as a platform type. */
  lemma PlatformTypeRoundTrip(t: PlatformType, s: string)
    ensures ParsePlatformType(PlatformTypeName(t)) == Some(t)
    ensures ParsePlatformType(s).Some? ==> PlatformTypeName(ParsePlatformType(s).value) == s
  {
  }

  datatype Credentials = Credentials(
    username: Option<string>,
    oauthToken: Option<string>,
    apiKey: Option<string>,
    clientId: Option<string>,
    clientSecret: Option<string>)

  const NO_CREDENTIALS := Credentials(None, None, None, None, None)

  datatype PlatformSettings = PlatformSettings(
    maxReconnectAttempts: nat,
    reconnectDelayMs: nat,
    messageBufferSize: nat,
    enableEmotes: bool,
    enableBadges: bool,
    customSettings: map<string, Json>)

  /** `PlatformSettings::default()`. */
  const DEFAULT_PLATFORM_SETTINGS := PlatformSettings(5, 1000, 1000, true, true, map[])

  datatype PlatformConfig = PlatformConfig(
    platformType: PlatformType,
    enabled: bool,
    credentials: Credentials,
    settings: PlatformSettings)

  /** `PlatformConfig::default()`. */
  const DEFAULT_PLATFORM_CONFIG := PlatformConfig(Twitch, true, NO_CREDENTIALS, DEFAULT_PLATFORM_SETTINGS)

  datatype MessageFilters = MessageFilters(
    minMessageLength: Option<nat>,
    maxMessageLength: Option<nat>,
    blockedUsers: seq<string>,
    allowedUsers: seq<string>,
    blockedWords: seq<string>,
    commandsOnly: bool,
    subscribersOnly: bool,
    vipOnly: bool)

  datatype ConnectionConfig = ConnectionConfig(
    id: string,
    platform: string,
    channel: string,
    enabled: bool,
    filters: MessageFilters,
    displayName: Option<string>)

  datatype WindowConfig = WindowConfig(
    messageDurationSeconds: nat,
    maxWindows: nat,
    testMessage: string,
    animationEnabled: bool,
    fadeInDurationMs: nat,
    fadeOutDurationMs: nat)

  datatype DisplayConfig = DisplayConfig(
    monitorMargin: int,
    windowSize: int,
    gridSize: int,
    fontFamily: string,
    fontSize: nat,
    backgroundColor: string,
    textColor: string,
    usernameColor: string,
    borderRadius: nat)

  datatype EmoteSize = Small | Medium | Large | ExtraLarge

  datatype EmoteConfig = EmoteConfig(
    enableGlobalEmotes: bool,
    enableChannelEmotes: bool,
    enableSubscriberEmotes: bool,
    enableBttv: bool,
    enableFfz: bool,
    enable7tv: bool,
    emoteSize: EmoteSize,
    emoteAnimation: bool,
    maxEmotesPerMessage: nat,
    cacheEnabled: bool,
    cacheTtlHours: nat)

  /** `EmoteConfig::default()`, which is also the emote part of `Config::default()`. */
  const DEFAULT_EMOTE_CONFIG := EmoteConfig(true, true, true, true, true, true, Medium, true, 50, true, 24)

  datatype LogLevel = Trace | Debug | Info | Warn | Error

  datatype LoggingConfig = LoggingConfig(
    level: LogLevel,
    fileEnabled: bool,
    consoleEnabled: bool,
    logFilePath: Option<string>,
    maxFileSizeMb: nat,
    maxFiles: nat)

  datatype Config = Config(
    platforms: map<string, PlatformConfig>,
    connections: seq<ConnectionConfig>,
    window: WindowConfig,
    display: DisplayConfig,
    emotes: EmoteConfig,
    logging: LoggingConfig)

  datatype ConfigError =
    | FileError(msg: string)
    | ParseError(msg: string)
    | SerializeError(msg: string)
    | ValidationError(msg: string)

  // ---------------------------------------------------------------------------
  // Defaults
  // ---------------------------------------------------------------------------

  const CHAT_FILTERS := MessageFilters(None, Some(500), [], [], [], false, false, false)

  /** The settings both default platforms use. */
  const DEFAULT_CHAT_SETTINGS := PlatformSettings(5, 5000, 1000, true, true, map[])

  /** `Config::default()`: Twitch and Kick enabled; the Twitch connection is
      disabled (it needs a token), the Kick one enabled. */
  function DefaultConfig(): Config {
    Config(
      map["twitch" := PlatformConfig(Twitch, true, NO_CREDENTIALS, DEFAULT_CHAT_SETTINGS),
          "kick" := PlatformConfig(Kick, true, NO_CREDENTIALS, DEFAULT_CHAT_SETTINGS)],
      [ConnectionConfig("twitch_main", "twitch", "gohuntleo", false, CHAT_FILTERS, Some("Main Twitch Chat")),
       ConnectionConfig("kick_main", "kick", "spreen", true, CHAT_FILTERS, Some("Kick Chat"))],
      WindowConfig(10, 100, "TEST", true, 300, 500),
      DisplayConfig(40, 200, 100, "Arial", 14, "#1e1e1e", "#ffffff", "#00ff00", 8),
      DEFAULT_EMOTE_CONFIG,
      LoggingConfig(Info, true, true, Some("overlay.log"), 10, 5))
  }

  // ---------------------------------------------------------------------------
  // Validation
  // ---------------------------------------------------------------------------

  /** The first connection, in order, whose platform is not configured. */
  function FirstMissingPlatform(connections: seq<ConnectionConfig>, platforms: map<string, PlatformConfig>): (r: Option<nat>)
    ensures r.Some? ==> r.value < |connections| && connections[r.value].platform !in platforms
    ensures r.Some? ==> forall i :: 0 <= i < r.value ==> connections[i].platform in platforms
    ensures r.None? ==> forall i :: 0 <= i < |connections| ==> connections[i].platform in platforms
  {
    if connections == [] then None
    else if connections[0].platform !in platforms then Some(0)
    else match FirstMissingPlatform(connections[1..], platforms)
      case None => None
      case Some(i) => Some(i + 1)
  }

  /** `Config::validate`: the checks run in this order and the first that
      fails names the error. */
  function Validate(c: Config): Result<(), ConfigError> {
    if forall name :: name in c.platforms ==> !c.platforms[name].enabled then
      Err(ValidationError("At least one platform must be enabled"))
    else if forall i :: 0 <= i < |c.connections| ==> !c.connections[i].enabled then
      Err(ValidationError("At least one connection must be enabled"))
    else if FirstMissingPlatform(c.connections, c.platforms).Some? then
      var conn := c.connections[FirstMissingPlatform(c.connections, c.platforms).value];
      Err(ValidationError("Connection '" + conn.id + "' references non-existent platform '" + conn.platform + "'"))
    else if c.window.messageDurationSeconds == 0 then
      Err(ValidationError("message_duration_seconds must be greater than 0"))
    else if c.window.maxWindows == 0 then
      Err(ValidationError("max_windows must be greater than 0"))
    else
      Ok(())
  }

  /** What a valid configuration is: some platform and some connection
      enabled, every connection (enabled or not) naming a configured
      platform, and a positive message duration and window count. */
  predicate WellFormed(c: Config) {
    && (exists name :: name in c.platforms && c.platforms[name].enabled)
    && (exists conn :: conn in c.connections && conn.enabled)
    && (forall conn :: conn in c.connections ==> conn.platform in c.platforms)
    && c.window.messageDurationSeconds > 0
    && c.window.maxWindows > 0
  }

  /** `validate` accepts exactly the well-formed configurations, and every
      rejection is a validation error. */
  lemma ValidateIffWellFormed(c: Config)
    ensures Validate(c).Ok? <==> WellFormed(c)
    ensures Validate(c).Err? ==> Validate(c).error.ValidationError?
  {
    if Validate(c).Ok? { ValidateSound(c); }
    if WellFormed(c) { ValidateComplete(c); }
  }

  lemma ValidateSound(c: Config)
    requires Validate(c).Ok?
    ensures WellFormed(c)
  {
    var i :| 0 <= i < |c.connections| && c.connections[i].enabled;
    assert c.connections[i] in c.connections;
    forall conn | conn in c.connections ensures conn.platform in c.platforms {
      var j :| 0 <= j < |c.connections| && c.connections[j] == conn;
    }
  }

  lemma ValidateComplete(c: Config)
    requires WellFormed(c)
    ensures Validate(c).Ok?
  {
    var conn :| conn in c.connections && conn.enabled;
    var j :| 0 <= j < |c.connections| && c.connections[j] == conn;
    forall k | 0 <= k < |c.connections| ensures c.connections[k].platform in c.platforms {
      assert c.connections[k] in c.connections;
    }
  }

  /** An empty platform map fails the first check. */
  lemma NoPlatformsRejected(c: Config)
    requires c.platforms == map[]
    ensures Validate(c) == Err(ValidationError("At least one platform must be enabled"))
  {
  }

  /** A connection naming a missing platform is reported even when it is
      disabled, provided the first two checks pass. */
  lemma DisabledDanglingRejected(c: Config, i: nat)
    requires i < |c.connections| && c.connections[i].platform !in c.platforms
    ensures Validate(c).Err?
  {
    assert c.connections[i] in c.connections;
    ValidateIffWellFormed(c);
  }

  /** The default configuration passes validation. */
  lemma DefaultConfigValid()
    ensures Validate(DefaultConfig()).Ok?
  {
    var c := DefaultConfig();
    assert "kick" in c.platforms && c.platforms["kick"].enabled;
    assert c.connections[1].enabled;
    assert FirstMissingPlatform(c.connections, c.platforms).None? by {
      assert c.connections[0].platform == "twitch" && c.connections[1].platform == "kick";
    }
  }

  /** `save_to_file` validates first: only a valid configuration reaches the
      writer, and an invalid one is reported with the validation's error. The
      JSON text and the file are not modelled; success hands back what would
      be written. */
  function Save(c: Config): (r: Result<Config, ConfigError>)
    ensures r.Ok? <==> WellFormed(c)
    ensures r.Ok? ==> r.value == c
    ensures r.Err? ==> r == Err(Validate(c).error)
  {
    ValidateIffWellFormed(c);
    match Validate(c)
    case Err(e) => Err(e)
    case Ok(_) => Ok(c)
  }

  // ---------------------------------------------------------------------------
  // Lookups
  // ---------------------------------------------------------------------------

  /** `get_enabled_connections`: the enabled connections, in order. */
  function EnabledConnections(connections: seq<ConnectionConfig>): (r: seq<ConnectionConfig>)
    ensures forall conn :: conn in r <==> conn in connections && conn.enabled
    ensures |r| <= |connections|
  {
    if connections == [] then []
    else (if connections[0].enabled then [connections[0]] else []) + EnabledConnections(connections[1..])
  }

  /** Filtering distributes over concatenation, so the order of the
      connections is kept. */
  lemma {:induction false} EnabledConnectionsAppend(a: seq<ConnectionConfig>, b: seq<ConnectionConfig>)
    ensures EnabledConnections(a + b) == EnabledConnections(a) + EnabledConnections(b)
    decreases |a|
  {
    if a == [] {
      assert a + b == b;
    } else {
      assert (a + b)[0] == a[0];
      assert (a + b)[1..] == a[1..] + b;
      EnabledConnectionsAppend(a[1..], b);
    }
  }

  /** `get_enabled_platforms`: the names of the enabled platforms (the map's
      iteration order is unspecified, so the model returns a set). */
  function EnabledPlatforms(c: Config): (r: set<string>)
    ensures forall name :: name in r <==> name in c.platforms && c.platforms[name].enabled
  {
    set name | name in c.platforms && c.platforms[name].enabled
  }

  /** A valid configuration has an enabled platform and an enabled connection
      to show. */
  lemma ValidHasSomethingEnabled(c: Config)
    requires Validate(c).Ok?
    ensures EnabledPlatforms(c) != {} && EnabledConnections(c.connections) != []
  {
    ValidateIffWellFormed(c);
    var name :| name in c.platforms && c.platforms[name].enabled;
    assert name in EnabledPlatforms(c);
    var conn :| conn in c.connections && conn.enabled;
    assert conn in EnabledConnections(c.connections);
  }

  /** `get_platform_config`. */
  function GetPlatformConfig(c: Config, name: string): (r: Option<PlatformConfig>)
    ensures r.Some? <==> name in c.platforms
    ensures r.Some? ==> r.value == c.platforms[name]
  {
    if name in c.platforms then Some(c.platforms[name]) else None
  }

  /** Every connection of a valid configuration finds its platform's
      configuration. */
  lemma ValidConnectionsResolve(c: Config, conn: ConnectionConfig)
    requires Validate(c).Ok? && conn in c.connections
    ensures GetPlatformConfig(c, conn.platform).Some?
  {
    ValidateIffWellFormed(c);
  }

  /** `message_duration`: a whole number of seconds. */
  function MessageDurationSeconds(c: Config): nat {
    c.window.messageDurationSeconds
  }

  /** A valid configuration shows each message for a positive time. */
  lemma ValidDurationPositive(c: Config)
    requires Validate(c).Ok?
    ensures MessageDurationSeconds(c) > 0
  {
  }
}
