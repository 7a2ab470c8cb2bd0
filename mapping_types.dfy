/** The shared vocabulary of the message-mapping layer (`src/mapping/mod.rs`):
    user levels, message types, the intermediate and final message records,
    the mapping configuration and its errors. Timestamps are plain numbers. */
module MappingTypes {
  import opened Wrappers
  import Connection
  import opened Json

  datatype UserLevel =
    | Normal | Subscriber | Vip | Moderator | Broadcaster
    | Staff | Admin | GlobalModerator | Unknown

  datatype MappedMessageType =
    | Normal | Action | System | Whisper | Highlight | Subscription
    | Raid | Cheer | Poll | Prediction | Timeout | Ban | Unknown

  datatype MappingError =
    | UnsupportedPlatform(msg: string)
    | TransformationError(msg: string)
    | ParseError(msg: string)
    | ValidationError(msg: string)
    | ConfigError(msg: string)
    | InternalError(msg: string)

  datatype MappingConfig = MappingConfig(
    normalizeUsernames: bool,
    normalizeChannels: bool,
    convertTimestamps: bool,
    filterSystemMessages: bool,
    mergeDuplicateEmotes: bool,
    resolveUserLevels: bool,
    customMappings: map<string, Json>)

  /** `MappingConfig::default`: every switch on except the system-message
      filter, and no custom mappings. */
  const DEFAULT_MAPPING_CONFIG := MappingConfig(true, true, true, false, true, true, map[])

  /** The message a platform adapter produces, before custom transforms. */
  datatype StandardizedMessage = StandardizedMessage(
    platform: string,
    channel: string,
    username: string,
    displayName: Option<string>,
    content: string,
    emotes: seq<Connection.Emote>,
    badges: seq<Connection.Badge>,
    timestamp: nat,
    userLevel: UserLevel,
    messageType: MappedMessageType,
    rawData: Json)

  /** The flags and extracted numbers attached to a mapped message; the numeric
      fields hold `u32` values. */
  datatype MappedMetadata = MappedMetadata(
    isAction: bool,
    isWhisper: bool,
    isHighlighted: bool,
    isMeMessage: bool,
    isDeleted: bool,
    replyTo: Option<string>,
    threadId: Option<string>,
    cheerAmount: Option<nat>,
    subscriptionMonths: Option<nat>,
    raidViewers: Option<nat>,
    timeoutDuration: Option<nat>,
    customData: map<string, Json>)

  datatype MappedMessage = MappedMessage(
    id: string,
    platform: string,
    channel: string,
    username: string,
    displayName: Option<string>,
    content: string,
    emotes: seq<Connection.Emote>,
    badges: seq<Connection.Badge>,
    timestamp: nat,
    userLevel: UserLevel,
    messageType: MappedMessageType,
    metadata: MappedMetadata)

  datatype RawPlatformMessage = RawPlatformMessage(
    platform: string,
    channel: string,
    rawData: Json,
    timestamp: nat,
    messageId: Option<string>)

  /** `order` lists every key of `m` exactly once: one of the orders in which a
      `HashMap` may be iterated. */
  predicate Enumerates<V>(order: seq<string>, m: map<string, V>) {
    && (forall i, j :: 0 <= i < j < |order| ==> order[i] != order[j])
    && (forall i :: 0 <= i < |order| ==> order[i] in m)
    && (forall k :: k in m ==> k in order)
  }
}
