// The Twitch platform: credential checks, the login chosen on connect, the
// conversion of IRC messages into chat messages and the channel bookkeeping
// that joining, leaving, disconnecting and incoming messages perform. The IRC
// client itself is outside the model; what it reports is passed in.

module Twitch {
  import opened Wrappers
  import opened Text
  import opened Connection
  import Config
  import PlatformBase
  import Platforms
  import EmoteParser

  /** `TwitchError`. */
  datatype TwitchError =
    | ConnectionError(msg: string)
    | JoinError(msg: string)
    | AuthError(msg: string)
    | ParseError(msg: string)

  // ---------------------------------------------------------------------------
  // Credentials
  // ---------------------------------------------------------------------------

  const ANONYMOUS_USER := "justinfan12345"
  const TOKEN_PLACEHOLDER := "oauth:YOUR_OAUTH_TOKEN_HERE"
  const OAUTH_PREFIX := "oauth:"

  /** `TwitchCreator::validate_credentials`: no credentials at all is an
      anonymous login and fine; a username and token together must be a
      non-empty name and an `oauth:` token longer than 10 characters; one
      without the other is refused. */
  function ValidateCredentials(c: Config.Credentials): (ok: bool)
    ensures c.username.None? && c.oauthToken.None? ==> ok
    ensures c.username.Some? != c.oauthToken.Some? ==> !ok
    ensures c.username.Some? && c.oauthToken.Some? ==>
              (ok <==> c.username.value != [] && StartsWith(c.oauthToken.value, OAUTH_PREFIX)
                       && |c.oauthToken.value| > 10)
  {
    if c.username.None? && c.oauthToken.None? then true
    else if c.username.Some? && c.oauthToken.Some? then
      c.username.value != [] && StartsWith(c.oauthToken.value, OAUTH_PREFIX) && |c.oauthToken.value| > 10
    else false
  }

  /** The login an IRC client is built with. */
  datatype Login = Login(user: string, token: Option<string>)

  /** A token that `connect` treats as no token at all. */
  predicate UnusableToken(t: Option<string>) {
    t.None? || t.value == [] || t.value == TOKEN_PLACEHOLDER
  }

  /** The login `connect` uses: anonymous without a usable token, otherwise
      the configured user (anonymous by default) with that token. */
  function LoginFor(c: Config.Credentials): (l: Login)
    ensures l.token.None? <==> UnusableToken(c.oauthToken)
    ensures l.token.None? ==> l.user == ANONYMOUS_USER
    ensures l.token.Some? ==> l.token == c.oauthToken
    ensures l.token.Some? && c.username.Some? ==> l.user == c.username.value
    ensures c.username.None? ==> l.user == ANONYMOUS_USER
  {
    if UnusableToken(c.oauthToken) then Login(ANONYMOUS_USER, None)
    else Login(if c.username.Some? then c.username.value else ANONYMOUS_USER, c.oauthToken)
  }

  /** Credentials that pass validation log in as themselves, unless the token
      is the configuration template's placeholder. */
  lemma ValidCredentialsLogIn(c: Config.Credentials)
    requires ValidateCredentials(c) && c.oauthToken.Some?
    requires c.oauthToken.value != TOKEN_PLACEHOLDER
    ensures LoginFor(c) == Login(c.username.value, c.oauthToken)
  {
  }

  /** The placeholder token passes validation, yet `connect` ignores it and
      logs in anonymously: the two checks disagree on it. */
  lemma PlaceholderValidButAnonymous(user: string)
    requires user != []
    ensures ValidateCredentials(Config.Credentials(Some(user), Some(TOKEN_PLACEHOLDER), None, None, None))
    ensures LoginFor(Config.Credentials(Some(user), Some(TOKEN_PLACEHOLDER), None, None, None))
            == Login(ANONYMOUS_USER, None)
  {
    assert TOKEN_PLACEHOLDER[..|OAUTH_PREFIX|] == OAUTH_PREFIX;
  }

  /** Validation never refuses what `connect` would turn into an anonymous
      login when no username is set. */
  lemma NoCredentialsAnonymous(c: Config.Credentials)
    requires c.username.None? && c.oauthToken.None?
    ensures ValidateCredentials(c) && LoginFor(c) == Login(ANONYMOUS_USER, None)
  {
  }

  // ---------------------------------------------------------------------------
  // Converting IRC messages
  // ---------------------------------------------------------------------------

  /** An emote the IRC library reports: id, the text it covers and its
      character range as the library gives it. */
  datatype IrcEmote = IrcEmote(id: string, code: string, rangeStart: nat, rangeEnd: nat)

  datatype IrcBadge = IrcBadge(name: string, version: string)

  const TWITCH_BADGE_CDN := "https://static-cdn.jtvnw.net/badges/v1/"

  /** One emote of `convert_twitch_emotes`: the parser's source rule, a single
      position equal to the reported range, a 28x28 CDN image and the id as
      emote set. */
  function ConvertTwitchEmote(e: IrcEmote): (r: Emote)
    ensures r.id == e.id && r.name == e.code
    ensures r.source == TwitchGlobal <==> StartsWith(e.id, "emotesv2_")
    ensures r.source == TwitchSubscriber <==> !StartsWith(e.id, "emotesv2_") && AllDigits(e.id)
    ensures r.source in {Twitch, TwitchGlobal, TwitchSubscriber}
    ensures r.positions == [TextPosition(e.rangeStart, e.rangeEnd)]
    ensures r.url == Some(EmoteParser.TWITCH_EMOTE_CDN + e.id)
    ensures r.width == r.height == Some(28) && !r.isAnimated
    ensures r.metadata == EmoteMetadata(false, false, Some(e.id), None)
  {
    Emote(e.id, e.code, EmoteParser.ClassifyTwitchSource(e.id), [TextPosition(e.rangeStart, e.rangeEnd)],
      Some(EmoteParser.TWITCH_EMOTE_CDN + e.id), false, Some(28), Some(28),
      EmoteMetadata(false, false, Some(e.id), None))
  }

  /** `convert_twitch_emotes`: one emote per reported emote, in order. */
  function ConvertTwitchEmotes(es: seq<IrcEmote>): (r: seq<Emote>)
    ensures |r| == |es|
    ensures forall i :: 0 <= i < |es| ==> r[i] == ConvertTwitchEmote(es[i])
  {
    if es == [] then [] else [ConvertTwitchEmote(es[0])] + ConvertTwitchEmotes(es[1..])
  }

  /** An IRC emote that covers the same text as a span of the emotes tag
      converts to the emote the tag parser builds, except that the URL has no
      size variant. The model takes the IRC range as the tag gives it, with an
      INCLUSIVE end (`rangeEnd == s.end`, the last character of the code). The
      window code reads `char_range.end` as one past the end, and the emote
      test binary builds `0..4` for a five-letter code; neither of them is part
      of this model, so the range convention is fixed here rather than taken
      from them. */
  lemma ConvertedAgreesWithParser(message: string, s: EmoteParser.Span, e: IrcEmote)
    requires s.start <= s.end + 1 <= |message|
    requires e.id == s.id && e.code == message[s.start..s.end + 1]
    requires e.rangeStart == s.start && e.rangeEnd == s.end
    ensures ConvertTwitchEmote(e)
            == EmoteParser.TwitchEmote(message, s).(url := Some(EmoteParser.TWITCH_EMOTE_CDN + s.id))
  {
  }

  /** One badge of `convert_twitch_badges`. */
  function ConvertTwitchBadge(b: IrcBadge): (r: Badge)
    ensures r.id == r.name == b.name && r.version == b.version
    ensures r.url == Some(TWITCH_BADGE_CDN + b.name + "/" + b.version)
    ensures r.title.None? && r.source == Twitch
  {
    Badge(b.name, b.name, b.version, Some(TWITCH_BADGE_CDN + b.name + "/" + b.version), None, Twitch)
  }

  function ConvertTwitchBadges(bs: seq<IrcBadge>): (r: seq<Badge>)
    ensures |r| == |bs|
    ensures forall i :: 0 <= i < |bs| ==> r[i] == ConvertTwitchBadge(bs[i])
  {
    if bs == [] then [] else [ConvertTwitchBadge(bs[0])] + ConvertTwitchBadges(bs[1..])
  }

  /** The fields of a `PRIVMSG` that the conversion reads. */
  datatype Privmsg = Privmsg(
    channelLogin: string, channelId: string, messageId: string,
    senderId: string, senderLogin: string, senderName: string,
    text: string, emotes: seq<IrcEmote>, badges: seq<IrcBadge>)

  /** `convert_privmsg_message`. */
  function ConvertPrivmsgMessage(m: Privmsg): (r: ChatMessage)
    ensures r.messageType == Action <==> StartsWith(m.text, "/me")
    ensures r.messageType == Action || r.messageType == Normal
    ensures r.metadata.isAction == r.metadata.isMeMessage == StartsWith(m.text, "/me")
    ensures !r.metadata.isWhisper && !r.metadata.isHighlighted
    ensures r.metadata.customData == map["user_id" := m.senderId, "message_id" := m.messageId, "room_id" := m.channelId]
    ensures r.id == m.messageId && r.platform == "twitch" && r.channel == m.channelLogin
    ensures r.username == m.senderLogin && r.displayName == Some(m.senderName) && r.content == m.text
    ensures r.emotes == ConvertTwitchEmotes(m.emotes) && r.badges == ConvertTwitchBadges(m.badges)
    ensures r.userColor.None?
  {
    var me := StartsWith(m.text, "/me");
    ChatMessage(m.messageId, "twitch", m.channelLogin, m.senderLogin, Some(m.senderName), m.text,
      ConvertTwitchEmotes(m.emotes), ConvertTwitchBadges(m.badges), None,
      if me then Action else Normal,
      MessageMetadata(me, false, false, me, None, None,
        map["user_id" := m.senderId, "message_id" := m.messageId, "room_id" := m.channelId]))
  }

  // ---------------------------------------------------------------------------
  // Server messages
  // ---------------------------------------------------------------------------

  datatype ClearChatAction = UserBanned(userLogin: string) | UserTimedOut(userLogin: string) | ChatCleared

  /** The server messages `handle_server_message` distinguishes. */
  datatype ServerMessage =
    | PrivmsgMessage(privmsg: Privmsg)
    | ClearChat(channelLogin: string, action: ClearChatAction)
    | UserNotice(channelLogin: string, noticeId: string, senderName: string)
    | RoomState(channelLogin: string)
    | Ping
    | Pong
    | OtherMessage

  function ClearChatText(action: ClearChatAction): string {
    match action
    case UserBanned(u) => u + " has been banned"
    case UserTimedOut(u) => u + " has been timed out"
    case ChatCleared => "Chat has been cleared by a moderator"
  }

  function UserNoticeText(noticeId: string, sender: string): string {
    if noticeId == "sub" || noticeId == "resub" then sender + " has subscribed!"
    else if noticeId == "raid" then sender + " is raiding the channel!"
    else "System notice from " + sender
  }

  /** The system message a `CLEARCHAT` becomes; `id` is the generated
      message id. */
  function ClearChatMessage(id: string, channel: string, action: ClearChatAction): (r: ChatMessage)
    ensures r.messageType == System && r.username == "system" && r.displayName == Some("System")
    ensures r.metadata.isHighlighted && !r.metadata.isAction && !r.metadata.isMeMessage
    ensures r.channel == channel && r.content == ClearChatText(action) && r.id == id
    ensures r.emotes == [] && r.badges == [] && r.userColor == Some("#ff0000")
  {
    ChatMessage(id, "twitch", channel, "system", Some("System"), ClearChatText(action), [], [],
      Some("#ff0000"), System, MessageMetadata(false, false, true, false, None, None, map["clear_type" := "chat"]))
  }

  /** The subscription message a `USERNOTICE` becomes. */
  function UserNoticeMessage(id: string, channel: string, noticeId: string, sender: string): (r: ChatMessage)
    ensures r.messageType == Subscription && r.username == "system" && r.displayName == Some("System")
    ensures r.metadata.isHighlighted && r.metadata.customData == map["notice_type" := noticeId]
    ensures r.channel == channel && r.content == UserNoticeText(noticeId, sender) && r.id == id
    ensures r.emotes == [] && r.badges == [] && r.userColor == Some("#00ff00")
  {
    ChatMessage(id, "twitch", channel, "system", Some("System"), UserNoticeText(noticeId, sender), [], [],
      Some("#00ff00"), Subscription,
      MessageMetadata(false, false, true, false, None, None, map["notice_type" := noticeId]))
  }

  /** Notices are authored by "system" and carry a message type that no
      converted chat line can have. */
  lemma NoticesAreSystemAuthored(id: string, m: Privmsg, notice: ServerMessage)
    requires notice.ClearChat? || notice.UserNotice?
    ensures var r := if notice.ClearChat? then ClearChatMessage(id, notice.channelLogin, notice.action)
                     else UserNoticeMessage(id, notice.channelLogin, notice.noticeId, notice.senderName);
            r.username == "system" && r.messageType != ConvertPrivmsgMessage(m).messageType
  {
  }

  // ---------------------------------------------------------------------------
  // The platform
  // ---------------------------------------------------------------------------

  const NOT_CONNECTED := "Not connected to Twitch"

  /** `TwitchPlatform`: the shared platform state, the credentials from its
      configuration and, while connected, the login of its IRC client. */
  class TwitchPlatform {
    const base: PlatformBase.BasePlatform
    var credentials: Config.Credentials
    var client: Option<Login>

    /** `TwitchPlatform::new`. */
    constructor (config: Config.PlatformConfig, now: nat)
      ensures fresh(base) && base.platformName == "twitch" && base.platformType == Config.Twitch
      ensures !base.connected && base.channels == map[]
      ensures credentials == config.credentials && client.None?
    {
      base := new PlatformBase.BasePlatform("twitch", Config.Twitch, now);
      credentials := config.credentials;
      client := None;
    }

    /** `connect`: build the client with the chosen login and mark the platform
        connected. */
    method Connect()
      modifies this, base
      ensures client == Some(LoginFor(credentials)) && base.connected
      ensures credentials == old(credentials) && base.channels == old(base.channels)
    {
      client := Some(LoginFor(credentials));
      base.connected := true;
    }

    /** `join_channel`: without a client it fails with a connection error;
        otherwise the sanitised channel is joined (`ircJoin` is what the
        client's `join` answers) and recorded with a fresh entry. */
    method JoinChannel(channel: string, ircJoin: Result<(), string>, now: nat)
        returns (r: Result<(), TwitchError>)
      modifies base
      ensures client.None? ==> r == Err(ConnectionError(NOT_CONNECTED)) && base.channels == old(base.channels)
      ensures client.Some? && ircJoin.Err? ==> r == Err(JoinError(ircJoin.error)) && base.channels == old(base.channels)
      ensures client.Some? && ircJoin.Ok? ==> r.Ok? && base.channels == old(base.channels)[
                Platforms.SanitizeChannelName(channel) :=
                PlatformBase.ChannelInfo(Platforms.SanitizeChannelName(channel), now, 0, None, false, None, None)]
      ensures base.connected == old(base.connected)
    {
      if client.None? {
        return Err(ConnectionError(NOT_CONNECTED));
      }
      var sanitized := Platforms.SanitizeChannelName(channel);
      if ircJoin.Err? {
        return Err(JoinError(ircJoin.error));
      }
      base.UpdateChannelInfo(sanitized, PlatformBase.ChannelInfo(sanitized, now, 0, None, false, None, None));
      return Ok(());
    }

    /** `leave_channel`: forget the sanitised channel, if connected. */
    method LeaveChannel(channel: string) returns (r: Result<(), TwitchError>)
      modifies base
      ensures client.None? ==> r == Err(ConnectionError(NOT_CONNECTED)) && base.channels == old(base.channels)
      ensures client.Some? ==> r.Ok? && base.channels == old(base.channels) - {Platforms.SanitizeChannelName(channel)}
      ensures base.connected == old(base.connected)
    {
      if client.None? {
        return Err(ConnectionError(NOT_CONNECTED));
      }
      base.channels := base.channels - {Platforms.SanitizeChannelName(channel)};
      return Ok(());
    }

    /** `disconnect`: drop the client, every channel and the connected flag. */
    method Disconnect()
      modifies this, base
      ensures client.None? && !base.connected && base.channels == map[]
      ensures credentials == old(credentials)
    {
      base.connected := false;
      client := None;
      base.channels := map[];
    }

    /** `handle_server_message`: a `PRIVMSG` bumps its channel's message count
        and is converted; `CLEARCHAT` and `USERNOTICE` become system messages
        under the generated id `id`; `ROOMSTATE` (re)records its channel as
        live with no messages; everything else is dropped. */
    method HandleServerMessage(message: ServerMessage, id: string, now: nat) returns (r: Option<ChatMessage>)
      modifies base
      ensures message.PrivmsgMessage? ==> r == Some(ConvertPrivmsgMessage(message.privmsg))
      ensures message.PrivmsgMessage? && message.privmsg.channelLogin in old(base.channels) ==>
                var c := message.privmsg.channelLogin;
                base.channels == old(base.channels)[c := old(base.channels)[c].(messageCount := old(base.channels)[c].messageCount + 1)]
      ensures message.PrivmsgMessage? && message.privmsg.channelLogin !in old(base.channels) ==>
                base.channels == old(base.channels)
      ensures message.ClearChat? ==> r == Some(ClearChatMessage(id, message.channelLogin, message.action))
      ensures message.UserNotice? ==>
                r == Some(UserNoticeMessage(id, message.channelLogin, message.noticeId, message.senderName))
      ensures message.RoomState? ==> r.None? && base.channels == old(base.channels)[
                message.channelLogin := PlatformBase.ChannelInfo(message.channelLogin, now, 0, Some(0), true, None, None)]
      ensures !message.PrivmsgMessage? && !message.RoomState? ==> base.channels == old(base.channels)
      ensures (message.Ping? || message.Pong? || message.OtherMessage?) ==> r.None?
      ensures base.connected == old(base.connected)
    {
      match message {
        case PrivmsgMessage(m) =>
          var info := base.GetChannelInfo(m.channelLogin);
          if info.Some? {
            base.UpdateChannelInfo(m.channelLogin, info.value.(messageCount := info.value.messageCount + 1));
          }
          r := Some(ConvertPrivmsgMessage(m));
        case ClearChat(channel, action) =>
          r := Some(ClearChatMessage(id, channel, action));
        case UserNotice(channel, noticeId, sender) =>
          r := Some(UserNoticeMessage(id, channel, noticeId, sender));
        case RoomState(channel) =>
          base.UpdateChannelInfo(channel, PlatformBase.ChannelInfo(channel, now, 0, Some(0), true, None, None));
          r := None;
        case Ping =>
          r := None;
        case Pong =>
          r := None;
        case OtherMessage =>
          r := None;
      }
    }
  }

  /** Joining then leaving the same channel, in any spelling the sanitiser
      folds together, leaves the platform out of that channel. */
  method JoinThenLeave(p: TwitchPlatform, joinAs: string, leaveAs: string, now: nat)
    requires p.client.Some?
    requires Platforms.SanitizeChannelName(joinAs) == Platforms.SanitizeChannelName(leaveAs)
    modifies p.base
    ensures !p.base.IsInChannel(Platforms.SanitizeChannelName(joinAs))
  {
    var j := p.JoinChannel(joinAs, Ok(()), now);
    var l := p.LeaveChannel(leaveAs);
  }
}
