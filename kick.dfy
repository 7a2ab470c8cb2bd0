// The Kick platform: converting chat events into chat messages, the
// authentication token fields, the channel-id lookup with its fallback table,
// and what connecting, joining, leaving and disconnecting do to the state. The
// WebSocket and the HTTP API are outside the model; what they answer is
// passed in.

module Kick {
  import opened Wrappers
  import opened Text
  import opened Connection
  import Config
  import PlatformBase
  import Twitch

  /** `KickError`. */
  datatype KickError =
    | WebSocketError(msg: string)
    | AuthError(msg: string)
    | ConnectionError(msg: string)
    | ParseError(msg: string)
    | ApiError(msg: string)

  // ---------------------------------------------------------------------------
  // convert_kick_message
  // ---------------------------------------------------------------------------

  /** A badge of the sender's identity; `count` is a `u32`. */
  datatype BadgeData = BadgeData(badgeType: string, text: string, count: Option<nat>)

  /** The fields of a chat event that the conversion reads. */
  datatype ChatMessageData = ChatMessageData(
    id: string, content: string,
    senderUsername: string, senderSlug: string, color: string,
    badges: seq<BadgeData>)

  /** One converted badge: the type is the id, the text is both name and
      title, and the count in decimal (or nothing) is the version. */
  function ConvertBadge(b: BadgeData): (r: Badge)
    ensures r.id == b.badgeType && r.name == b.text && r.title == Some(b.text)
    ensures r.url.None? && r.source == Kick
    ensures b.count.None? <==> r.version == []
    ensures b.count.Some? ==> AllDigits(r.version) && DecimalValue(r.version) == b.count.value
  {
    match b.count
    case None => Badge(b.badgeType, b.text, [], None, Some(b.text), Kick)
    case Some(n) =>
      NatToStringValue(n);
      Badge(b.badgeType, b.text, NatToString(n), None, Some(b.text), Kick)
  }

  function ConvertBadges(bs: seq<BadgeData>): (r: seq<Badge>)
    ensures |r| == |bs|
    ensures forall i :: 0 <= i < |bs| ==> r[i] == ConvertBadge(bs[i])
  {
    if bs == [] then [] else [ConvertBadge(bs[0])] + ConvertBadges(bs[1..])
  }

  /** The version of a counted badge parses back to its count. */
  lemma BadgeVersionRoundTrip(b: BadgeData)
    requires b.count.Some? && b.count.value < U32_BOUND
    ensures ParseUnsigned(ConvertBadge(b).version, U32_BOUND) == b.count
  {
    ParseNatToString(b.count.value, U32_BOUND);
  }

  /** `convert_kick_message`, given the channel name it picks. */
  function KickMessageOf(d: ChatMessageData, channel: string): (r: ChatMessage)
    ensures r.id == d.id && r.platform == "kick" && r.channel == channel
    ensures r.username == d.senderUsername && r.displayName == Some(d.senderSlug)
    ensures r.content == d.content && r.emotes == [] && r.badges == ConvertBadges(d.badges)
    ensures r.userColor == Some(d.color) && r.messageType == Normal
    ensures r.metadata.isAction <==> StartsWith(d.content, "/me ")
    ensures r.metadata.isMeMessage <==> StartsWith(d.content, "/me")
    ensures !r.metadata.isWhisper && !r.metadata.isHighlighted && r.metadata.customData == map[]
  {
    ChatMessage(d.id, "kick", channel, d.senderUsername, Some(d.senderSlug), d.content, [],
      ConvertBadges(d.badges), Some(d.color), Normal,
      MessageMetadata(StartsWith(d.content, "/me "), false, false, StartsWith(d.content, "/me"),
        None, None, map[]))
  }

  /** Every action is a "/me" message, but not the other way round: "/me"
      with nothing after it is a "/me" message and not an action. */
  lemma KickActionNarrowerThanMe(d: ChatMessageData, channel: string)
    ensures KickMessageOf(d, channel).metadata.isAction ==> KickMessageOf(d, channel).metadata.isMeMessage
    ensures d.content == "/me" ==>
              !KickMessageOf(d, channel).metadata.isAction && KickMessageOf(d, channel).metadata.isMeMessage
  {
    if StartsWith(d.content, "/me ") {
      assert d.content[..3] == d.content[..4][..3];
    }
  }

  /** Kick and Twitch classify the same text differently: "/mean" is an
      action on Twitch and a plain "/me" message on Kick. */
  lemma KickAndTwitchDisagreeOnAction(d: ChatMessageData, m: Twitch.Privmsg, channel: string)
    requires d.content == "/mean" && m.text == "/mean"
    ensures Twitch.ConvertPrivmsgMessage(m).metadata.isAction
    ensures !KickMessageOf(d, channel).metadata.isAction
    ensures KickMessageOf(d, channel).metadata.isMeMessage
  {
    assert "/mean"[..3] == "/me";
    assert "/mean"[..4][3] != "/me "[3];
  }

  // ---------------------------------------------------------------------------
  // Channel ids
  // ---------------------------------------------------------------------------

  /** What one API endpoint yields: nothing usable (a failed request, a
      non-success status or an unreadable body), a channel object with an
      optional chatroom id, or, from the chatroom endpoint only, a bare
      chatroom object. */
  datatype EndpointReply =
    | NoReply
    | ChannelReply(channelId: string, chatroomId: Option<string>)
    | ChatroomReply(data: Option<string>)

  /** The hard-coded ids used when no endpoint answers. */
  function FallbackIds(channelName: string): (ids: (string, string))
    ensures ids.0 == ids.1
    ensures channelName == "xqc" ==> ids.0 == "1861340"
    ensures channelName != "xqc" ==> ids.0 == "1853871"
  {
    match channelName
    case "rodiksama" => ("1853871", "1853871")
    case "xqc" => ("1861340", "1861340")
    case _ => ("1853871", "1853871")
  }

  /** What one endpoint contributes, `viaChatroom` saying whether it is the
      chatroom endpoint (the only one whose bare chatroom replies count). */
  function EndpointIds(reply: EndpointReply, viaChatroom: bool): Option<(string, string)> {
    match reply
    case NoReply => None
    case ChannelReply(id, chatroom) => Some((id, if chatroom.Some? then chatroom.value else id))
    case ChatroomReply(data) => if viaChatroom && data.Some? then Some((data.value, data.value)) else None
  }

  /** The ids `get_channel_info` settles on: the public channel endpoint, then
      the chatroom endpoint, then the fallback table. */
  function ChannelIds(channelName: string, v2: EndpointReply, chatroom: EndpointReply): (ids: (string, string))
    ensures v2.ChannelReply? ==> ids.0 == v2.channelId
    ensures v2.ChannelReply? && v2.chatroomId.None? ==> ids.1 == v2.channelId
    ensures v2.ChannelReply? && v2.chatroomId.Some? ==> ids.1 == v2.chatroomId.value
    ensures !v2.ChannelReply? && EndpointIds(chatroom, true).None? ==> ids == FallbackIds(channelName)
  {
    match EndpointIds(v2, false)
    case Some(ids) => ids
    case None =>
      match EndpointIds(chatroom, true)
      case Some(ids) => ids
      case None => FallbackIds(channelName)
  }

  /** `get_channel_info`: tries the two endpoints in order and falls back to
      the table, so it never fails. */
  method GetChannelInfo(channelName: string, v2: EndpointReply, chatroom: EndpointReply)
      returns (ids: (string, string))
    ensures ids == ChannelIds(channelName, v2, chatroom)
  {
    var replies := [v2, chatroom];
    for k := 0 to 2
      invariant forall j :: 0 <= j < k ==> EndpointIds(replies[j], j == 1).None?
    {
      var found := EndpointIds(replies[k], k == 1);
      if found.Some? {
        assert k == 1 ==> EndpointIds(replies[0], false).None?;
        return found.value;
      }
    }
    assert EndpointIds(replies[0], false).None? && EndpointIds(replies[1], true).None?;
    return FallbackIds(channelName);
  }

  /** A bare chatroom object from the public channel endpoint is ignored. */
  lemma ChatroomReplyOnlyFromChatroomEndpoint(channelName: string, data: Option<string>)
    ensures ChannelIds(channelName, ChatroomReply(data), NoReply) == FallbackIds(channelName)
  {
  }

  // ---------------------------------------------------------------------------
  // The platform
  // ---------------------------------------------------------------------------

  /** `KickPlatform`: the shared platform state, whether a WebSocket is open,
      the ids of the joined chatroom and the authentication tokens. */
  class KickPlatform {
    const base: PlatformBase.BasePlatform
    var websocketOpen: bool
    var channelId: Option<string>
    var chatroomId: Option<string>
    var bearerToken: Option<string>
    var xsrfToken: Option<string>
    var cookies: Option<string>

    /** `KickPlatform::new`. */
    constructor (now: nat)
      ensures fresh(base) && base.platformName == "kick" && base.platformType == Config.Kick
      ensures !base.connected && base.channels == map[]
      ensures !websocketOpen && channelId.None? && chatroomId.None?
      ensures bearerToken.None? && xsrfToken.None? && cookies.None?
    {
      base := new PlatformBase.BasePlatform("kick", Config.Kick, now);
      websocketOpen := false;
      channelId, chatroomId := None, None;
      bearerToken, xsrfToken, cookies := None, None, None;
    }

    /** `set_auth_tokens`. */
    method SetAuthTokens(bearer: string, xsrf: string, cookie: string)
      modifies this
      ensures bearerToken == Some(bearer) && xsrfToken == Some(xsrf) && cookies == Some(cookie)
      ensures websocketOpen == old(websocketOpen) && channelId == old(channelId) && chatroomId == old(chatroomId)
    {
      bearerToken, xsrfToken, cookies := Some(bearer), Some(xsrf), Some(cookie);
    }

    /** `clear_auth_tokens`. */
    method ClearAuthTokens()
      modifies this
      ensures bearerToken.None? && xsrfToken.None? && cookies.None?
      ensures websocketOpen == old(websocketOpen) && channelId == old(channelId) && chatroomId == old(chatroomId)
    {
      bearerToken, xsrfToken, cookies := None, None, None;
    }

    /** `connect`: open the WebSocket (`handshake` is what the server answers)
        and mark the platform connected; a failed handshake changes nothing. */
    method Connect(handshake: Result<(), string>) returns (r: Result<(), KickError>)
      modifies this, base`connected
      ensures handshake.Err? ==> r == Err(WebSocketError("Failed to connect: " + handshake.error))
      ensures handshake.Err? ==> websocketOpen == old(websocketOpen) && base.connected == old(base.connected)
      ensures handshake.Ok? ==> r.Ok? && websocketOpen && base.connected
      ensures channelId == old(channelId) && chatroomId == old(chatroomId)
      ensures bearerToken == old(bearerToken) && xsrfToken == old(xsrfToken) && cookies == old(cookies)
    {
      if handshake.Err? {
        return Err(WebSocketError("Failed to connect: " + handshake.error));
      }
      websocketOpen := true;
      base.connected := true;
      return Ok(());
    }

    /** `join_channel`: connect first if needed, look the channel up, send the
        chatroom subscription when a WebSocket is open (`sent` is what sending
        answers), then record the channel under its name as given. */
    method JoinChannel(channel: string, handshake: Result<(), string>, v2: EndpointReply,
                       chatroom: EndpointReply, sent: Result<(), string>, now: nat)
        returns (r: Result<(), KickError>)
      modifies this, base`connected, base`channels
      ensures !old(base.connected) && handshake.Err? ==> r.Err? && base.channels == old(base.channels)
      ensures !old(base.connected) && handshake.Err? ==>
        && websocketOpen == old(websocketOpen) && !base.connected
        && channelId == old(channelId) && chatroomId == old(chatroomId)
      ensures bearerToken == old(bearerToken) && xsrfToken == old(xsrfToken) && cookies == old(cookies)
      ensures r.Ok? <==> (old(base.connected) || handshake.Ok?) && (sent.Ok? || (old(base.connected) && !old(websocketOpen)))
      ensures r.Ok? ==> base.connected && base.channels == old(base.channels)[
                channel := PlatformBase.ChannelInfo(channel, now, 0, None, true, None, None)]
      ensures old(base.connected) || handshake.Ok? ==>
                (channelId, chatroomId) == (Some(ChannelIds(channel, v2, chatroom).0),
                                                     Some(ChannelIds(channel, v2, chatroom).1))
      ensures r.Err? ==> base.channels == old(base.channels)
    {
      if !base.connected {
        r := Connect(handshake);
        if r.Err? {
          return;
        }
      }
      var ids := GetChannelInfo(channel, v2, chatroom);
      channelId, chatroomId := Some(ids.0), Some(ids.1);
      if websocketOpen && sent.Err? {
        return Err(WebSocketError("Failed to send subscription: " + sent.error));
      }
      base.channels := base.channels[channel := PlatformBase.ChannelInfo(channel, now, 0, None, true, None, None)];
      return Ok(());
    }

    /** `leave_channel`: forget the channel; it never fails. */
    method LeaveChannel(channel: string) returns (r: Result<(), KickError>)
      modifies base
      ensures r.Ok? && base.channels == old(base.channels) - {channel}
      ensures base.connected == old(base.connected)
    {
      base.channels := base.channels - {channel};
      return Ok(());
    }

    /** `disconnect`: close an open WebSocket (`closed` is what closing
        answers); on success the socket is gone and the platform is
        disconnected, while the joined channels stay recorded. */
    method Disconnect(closed: Result<(), string>) returns (r: Result<(), KickError>)
      modifies this, base`connected
      ensures old(websocketOpen) && closed.Err? ==> r == Err(WebSocketError("Failed to close WebSocket: " + closed.error))
      ensures old(websocketOpen) && closed.Err? ==> websocketOpen && base.connected == old(base.connected)
      ensures !old(websocketOpen) || closed.Ok? ==> r.Ok? && !websocketOpen && !base.connected
      ensures channelId == old(channelId) && chatroomId == old(chatroomId)
      ensures bearerToken == old(bearerToken) && xsrfToken == old(xsrfToken) && cookies == old(cookies)
    {
      if websocketOpen && closed.Err? {
        return Err(WebSocketError("Failed to close WebSocket: " + closed.error));
      }
      websocketOpen := false;
      base.connected := false;
      return Ok(());
    }

    /** `convert_kick_message`: the channel is whichever joined channel the
        map yields first, or "" when none is joined. */
    method ConvertKickMessage(d: ChatMessageData) returns (m: ChatMessage)
      ensures m == KickMessageOf(d, m.channel)
      ensures base.channels == map[] ==> m.channel == ""
      ensures base.channels != map[] ==> m.channel in base.channels
    {
      var channel := "";
      if base.channels != map[] {
        var some :| some in base.channels;
        channel := some;
      }
      m := KickMessageOf(d, channel);
    }
  }
}
