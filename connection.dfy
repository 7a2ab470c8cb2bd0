/** The chat data types every core file exchanges: emotes with their text
    positions and provenance, badges, and the platform-neutral chat message.
    The repository's `src/connection.rs` is meant to declare them; the fields and
    variants here are the ones the core files construct and match on. */
module Connection {
  import opened Wrappers

  datatype EmoteSource =
    | Twitch | TwitchGlobal | TwitchSubscriber
    | BTTV | FFZ | SevenTV
    | YouTube | Kick | Local | Facebook | Trovo

  /** Inclusive character range `[start, end]` of an emote in the message text. */
  datatype TextPosition = TextPosition(start: nat, end: nat)

  datatype EmoteMetadata = EmoteMetadata(
    isZeroWidth: bool,
    modifier: bool,
    emoteSetId: Option<string>,
    tier: Option<string>)

  datatype Emote = Emote(
    id: string,
    name: string,
    source: EmoteSource,
    positions: seq<TextPosition>,
    url: Option<string>,
    isAnimated: bool,
    width: Option<nat>,
    height: Option<nat>,
    metadata: EmoteMetadata)

  datatype Badge = Badge(
    id: string,
    name: string,
    version: string,
    url: Option<string>,
    title: Option<string>,
    source: EmoteSource)

  datatype MessageType = Normal | Action | System | Subscription | Whisper

  datatype MessageMetadata = MessageMetadata(
    isAction: bool,
    isWhisper: bool,
    isHighlighted: bool,
    isMeMessage: bool,
    replyTo: Option<string>,
    threadId: Option<string>,
    customData: map<string, string>)

  /** A chat message as platforms deliver it; the wall-clock timestamp is not
      part of the model. */
  datatype ChatMessage = ChatMessage(
    id: string,
    platform: string,
    channel: string,
    username: string,
    displayName: Option<string>,
    content: string,
    emotes: seq<Emote>,
    badges: seq<Badge>,
    userColor: Option<string>,
    messageType: MessageType,
    metadata: MessageMetadata)
}
