/** The emote providers of `src/emotes/providers.rs`: the JSON API client with
    its retry policy, and the Twitch, BetterTTV, FrankerFaceZ and 7TV providers
    that turn API responses into `EmoteData`. The network is a parameter: what
    the server answers on each attempt of a request. JSON decoding into the
    response records is part of that answer. */
module Providers {
  import opened Wrappers
  import opened Text
  import opened Connection
  import opened EmoteParser
  import opened EmoteSystem

  // ---------------------------------------------------------------------------
  // The API client
  // ---------------------------------------------------------------------------

  const MAX_RETRIES: nat := 3
  const BASE_DELAY_MS: nat := 500

  /** What one HTTP attempt produced: the request could not be sent, or a
      response with its status, its body text (if readable) and the outcome of
      decoding the body as the expected JSON record. */
  datatype HttpOutcome<T> =
    | SendFailed(reason: string)
    | Response(status: nat, body: Option<string>, decoded: Result<T, string>)

  /** `StatusCode::is_success`: a 2xx status. */
  predicate IsSuccess(status: nat) { 200 <= status <= 299 }

  /** `try_get_json`: every failure becomes a network error naming the URL. */
  function TryGetJson<T>(url: string, o: HttpOutcome<T>): (r: Result<T, EmoteError>)
    ensures r.Ok? <==> o.Response? && IsSuccess(o.status) && o.decoded.Ok?
    ensures r.Ok? ==> r.value == o.decoded.value
    ensures r.Err? ==> r.error.NetworkError?
    ensures o.SendFailed? ==> r == Err(NetworkError("Failed to fetch " + url + ": " + o.reason))
    ensures o.Response? && !IsSuccess(o.status) ==>
      StartsWith(r.error.msg, "HTTP " + NatToString(o.status) + " from " + url + ": ")
    ensures o.Response? && IsSuccess(o.status) && o.decoded.Err? ==>
      r == Err(NetworkError("Failed to parse JSON from " + url + ": " + o.decoded.error))
  {
    match o
    case SendFailed(reason) => Err(NetworkError("Failed to fetch " + url + ": " + reason))
    case Response(status, body, decoded) =>
      if !IsSuccess(status) then
        var prefix := "HTTP " + NatToString(status) + " from " + url + ": ";
        var text := body.GetOr("Unable to read response body");
        assert (prefix + text)[..|prefix|] == prefix;
        Err(NetworkError(prefix + text))
      else if decoded.Err? then Err(NetworkError("Failed to parse JSON from " + url + ": " + decoded.error))
      else Ok(decoded.value)
  }

  function Pow2(n: nat): (p: nat)
    ensures p >= 1
  {
    if n == 0 then 1 else 2 * Pow2(n - 1)
  }

  /** The wait before attempt `k >= 1`: the base delay doubled per earlier retry. */
  function RetryDelay(k: nat): nat
    requires k >= 1
  {
    BASE_DELAY_MS * Pow2(k - 1)
  }

  /** The answer of `get_json` from attempt `k` on: the first attempt that
      succeeds, or the last attempt's error. */
  function FetchedFrom<T>(url: string, attempts: nat -> HttpOutcome<T>, k: nat): Result<T, EmoteError>
    requires k < MAX_RETRIES
    decreases MAX_RETRIES - k
  {
    var r := TryGetJson(url, attempts(k));
    if r.Ok? || k == MAX_RETRIES - 1 then r else FetchedFrom(url, attempts, k + 1)
  }

  /** How many attempts `get_json` makes from attempt `k` on. */
  function AttemptsFrom<T>(url: string, attempts: nat -> HttpOutcome<T>, k: nat): nat
    requires k < MAX_RETRIES
    decreases MAX_RETRIES - k
  {
    if TryGetJson(url, attempts(k)).Ok? || k == MAX_RETRIES - 1 then 1 else 1 + AttemptsFrom(url, attempts, k + 1)
  }

  function Fetched<T>(url: string, attempts: nat -> HttpOutcome<T>): Result<T, EmoteError> {
    FetchedFrom(url, attempts, 0)
  }

  /** `get_json` succeeds exactly when one of the three attempts does, with the
      first successful attempt's value, after exactly that many attempts. */
  lemma FetchedFirstOk<T>(url: string, attempts: nat -> HttpOutcome<T>, k: nat)
    requires k < MAX_RETRIES && TryGetJson(url, attempts(k)).Ok?
    requires forall j :: 0 <= j < k ==> TryGetJson(url, attempts(j)).Err?
    ensures Fetched(url, attempts) == TryGetJson(url, attempts(k))
    ensures AttemptsFrom(url, attempts, 0) == k + 1
  {
    assert k == 0 || TryGetJson(url, attempts(0)).Err?;
    assert k <= 1 || TryGetJson(url, attempts(1)).Err?;
  }

  /** After three failed attempts the third attempt's error is returned, and
      whatever kind of error an attempt fails with, the next one is made. */
  lemma FetchedAllFail<T>(url: string, attempts: nat -> HttpOutcome<T>)
    requires forall j :: 0 <= j < MAX_RETRIES ==> TryGetJson(url, attempts(j)).Err?
    ensures Fetched(url, attempts) == TryGetJson(url, attempts(2))
    ensures AttemptsFrom(url, attempts, 0) == MAX_RETRIES
  {
    assert TryGetJson(url, attempts(0)).Err? && TryGetJson(url, attempts(1)).Err?;
  }

  /** The outcome is an error only when every attempt failed. */
  lemma FetchedErrIff<T>(url: string, attempts: nat -> HttpOutcome<T>)
    ensures Fetched(url, attempts).Err? <==> forall j :: 0 <= j < MAX_RETRIES ==> TryGetJson(url, attempts(j)).Err?
    ensures 1 <= AttemptsFrom(url, attempts, 0) <= MAX_RETRIES
  {
    if forall j :: 0 <= j < MAX_RETRIES ==> TryGetJson(url, attempts(j)).Err? {
      FetchedAllFail(url, attempts);
    } else if TryGetJson(url, attempts(0)).Ok? {
      FetchedFirstOk(url, attempts, 0);
    } else if TryGetJson(url, attempts(1)).Ok? {
      FetchedFirstOk(url, attempts, 1);
    } else {
      FetchedFirstOk(url, attempts, 2);
    }
  }

  /** `EmoteApiClient::get_json`: up to three attempts, waiting 500 ms before
      the second and 1000 ms before the third; the waits are returned. */
  method GetJson<T>(url: string, attempts: nat -> HttpOutcome<T>) returns (r: Result<T, EmoteError>, delays: seq<nat>)
    ensures r == Fetched(url, attempts)
    ensures |delays| + 1 == AttemptsFrom(url, attempts, 0)
    ensures forall i :: 0 <= i < |delays| ==> delays[i] == RetryDelay(i + 1)
  {
    var lastError: Option<EmoteError> := None;
    delays := [];
    for attempt := 0 to MAX_RETRIES
      invariant |delays| == if attempt == 0 then 0 else attempt - 1
      invariant forall i :: 0 <= i < |delays| ==> delays[i] == RetryDelay(i + 1)
      invariant forall j :: 0 <= j < attempt ==> TryGetJson(url, attempts(j)).Err?
      invariant attempt == 0 ==> lastError == None
      invariant attempt > 0 ==> lastError == Some(TryGetJson(url, attempts(attempt - 1)).error)
    {
      if attempt > 0 {
        delays := delays + [RetryDelay(attempt)];
      }
      var result := TryGetJson(url, attempts(attempt));
      if result.Ok? {
        FetchedFirstOk(url, attempts, attempt);
        return Ok(result.value), delays;
      }
      lastError := Some(result.error);
    }
    FetchedAllFail(url, attempts);
    r := Err(lastError.GetOr(NetworkError("Unknown error")));
  }

  /** Building on `get_json`: the value converted, or its error passed on. */
  function MapFetched<T>(r: Result<T, EmoteError>, f: T -> seq<EmoteData>): Result<seq<EmoteData>, EmoteError> {
    if r.Ok? then Ok(f(r.value)) else Err(r.error)
  }

  // ---------------------------------------------------------------------------
  // Conversion loops
  // ---------------------------------------------------------------------------

  /** `xs` converted element by element. */
  function Converted<A>(xs: seq<A>, f: A -> EmoteData): (r: seq<EmoteData>)
    ensures |r| == |xs| && forall i :: 0 <= i < |xs| ==> r[i] == f(xs[i])
  {
    seq(|xs|, i requires 0 <= i < |xs| => f(xs[i]))
  }

  /** The `for emote in … { emotes.push(EmoteData { … }) }` loops. */
  method ConvertAll<A>(xs: seq<A>, f: A -> EmoteData) returns (r: seq<EmoteData>)
    ensures r == Converted(xs, f)
  {
    r := [];
    for i := 0 to |xs|
      invariant r == Converted(xs[..i], f)
    {
      r := r + [f(xs[i])];
    }
    assert xs[..|xs|] == xs;
  }

  // ---------------------------------------------------------------------------
  // The providers
  // ---------------------------------------------------------------------------

  datatype ProviderKind = TwitchProvider | BttvProvider | FfzProvider | SevenTvProvider

  /** `provider_name`: the name each provider is registered under. */
  function ProviderName(k: ProviderKind): (name: string)
    ensures name in DEFAULT_PROVIDERS
    ensures ProviderSource(name) == match k
      case TwitchProvider => Twitch
      case BttvProvider => BTTV
      case FfzProvider => FFZ
      case SevenTvProvider => SevenTV
  {
    match k
    case TwitchProvider => "twitch"
    case BttvProvider => "bttv"
    case FfzProvider => "ffz"
    case SevenTvProvider => "7tv"
  }

  /** The default providers cover the default registry, one name each. */
  lemma ProviderNamesDistinct(a: ProviderKind, b: ProviderKind)
    ensures ProviderName(a) == ProviderName(b) ==> a == b
    ensures exists k :: ProviderName(k) == "twitch"
  {
    ProviderSourceInjective(ProviderName(a), ProviderName(b));
    assert ProviderName(TwitchProvider) == "twitch";
  }

  /** `parse_emotes`: the Twitch provider parses the `emotes` tag exactly as
      the emote parser does; the third-party providers find nothing there. */
  method ParseEmotes(k: ProviderKind, message: string, data: string) returns (r: Result<seq<Emote>, EmoteError>)
    requires k == TwitchProvider ==> NoReversedRange(message, data)
    ensures k != TwitchProvider ==> r == Ok([])
    ensures k == TwitchProvider ==> r == Ok(TwitchEmotes(message, data))
  {
    if k == TwitchProvider {
      var emotes := ParseTwitchEmotes(message, data);
      return Ok(emotes);
    }
    return Ok([]);
  }

  /** The Twitch provider's channel and global lookups are placeholders that
      fetch nothing and find nothing. */
  method TwitchChannelEmotes(platform: string, channel: string) returns (r: Result<seq<EmoteData>, EmoteError>)
    ensures r == Ok([])
  {
    return Ok([]);
  }

  method TwitchGlobalEmotes() returns (r: Result<seq<EmoteData>, EmoteError>)
    ensures r == Ok([])
  {
    return Ok([]);
  }

  // BetterTTV

  datatype BttvEmote = BttvEmote(
    id: string, code: string, imageType: string, animated: bool, userId: string,
    modifier: bool, width: Option<nat>, height: Option<nat>)

  datatype BttvUserResponse = BttvUserResponse(channelEmotes: seq<BttvEmote>, sharedEmotes: seq<BttvEmote>)

  const BTTV_CDN := "https://cdn.betterttv.net/emote/"
  const BTTV_USERS := "https://api.betterttv.net/3/cached/users/twitch/"
  const BTTV_GLOBAL := "https://api.betterttv.net/3/cached/emotes/global"

  function BttvUrl(id: string): string { BTTV_CDN + id + "/3x" }

  /** A BetterTTV emote as data: its code is the name, the 3x image the URL;
      the modifier flag is kept only when asked to. */
  function BttvData(e: BttvEmote, keepModifier: bool): (d: EmoteData)
    ensures d.id == e.id && d.name == e.code && d.url == Some(BttvUrl(e.id))
    ensures d.isAnimated == e.animated && d.width == e.width && d.height == e.height
    ensures !d.isZeroWidth && d.emoteSetId == None
    ensures d.modifier <==> keepModifier && e.modifier
  {
    EmoteData(e.id, e.code, Some(BttvUrl(e.id)), e.animated, e.width, e.height, false,
      if keepModifier then e.modifier else false, None)
  }

  function BttvChannel(e: BttvEmote): EmoteData { BttvData(e, false) }
  function BttvGlobal(e: BttvEmote): EmoteData { BttvData(e, true) }

  /** A channel's emotes: its own, then those shared with it, none a modifier. */
  function BttvUserEmotes(resp: BttvUserResponse): (r: seq<EmoteData>)
    ensures |r| == |resp.channelEmotes| + |resp.sharedEmotes|
    ensures forall i :: 0 <= i < |resp.channelEmotes| ==> r[i] == BttvChannel(resp.channelEmotes[i])
    ensures forall i :: 0 <= i < |resp.sharedEmotes| ==>
      r[|resp.channelEmotes| + i] == BttvChannel(resp.sharedEmotes[i])
    ensures forall i :: 0 <= i < |r| ==> !r[i].modifier
  {
    Converted(resp.channelEmotes, BttvChannel) + Converted(resp.sharedEmotes, BttvChannel)
  }

  /** `get_channel_emotes` of BetterTTV: nothing for platforms other than
      Twitch; otherwise the channel's own emotes followed by its shared ones,
      none a modifier. */
  method BttvChannelEmotes(platform: string, channel: string, attempts: nat -> HttpOutcome<BttvUserResponse>)
    returns (r: Result<seq<EmoteData>, EmoteError>)
    ensures platform != "twitch" ==> r == Ok([])
    ensures platform == "twitch" ==>
      r == MapFetched(Fetched(BTTV_USERS + channel, attempts), BttvUserEmotes)
    ensures r.Ok? ==> forall i :: 0 <= i < |r.value| ==> !r.value[i].modifier && r.value[i].url == Some(BttvUrl(r.value[i].id))
  {
    if platform != "twitch" {
      return Ok([]);
    }
    var response, _ := GetJson(BTTV_USERS + channel, attempts);
    if response.Err? {
      return Err(response.error);
    }
    var own := ConvertAll(response.value.channelEmotes, BttvChannel);
    var shared := ConvertAll(response.value.sharedEmotes, BttvChannel);
    return Ok(own + shared);
  }

  /** `get_global_emotes` of BetterTTV: every global emote, modifier flag kept. */
  method BttvGlobalEmotes(attempts: nat -> HttpOutcome<seq<BttvEmote>>) returns (r: Result<seq<EmoteData>, EmoteError>)
    ensures r == MapFetched(Fetched(BTTV_GLOBAL, attempts), list => Converted(list, BttvGlobal))
    ensures r.Ok? ==> |r.value| == |Fetched(BTTV_GLOBAL, attempts).value|
  {
    var response, _ := GetJson(BTTV_GLOBAL, attempts);
    if response.Err? {
      return Err(response.error);
    }
    var emotes := ConvertAll(response.value, BttvGlobal);
    return Ok(emotes);
  }

  // FrankerFaceZ

  datatype FfzEmote = FfzEmote(id: nat, name: string, urls: map<string, string>, animated: Option<bool>)
  datatype FfzSet = FfzSet(emoticons: seq<FfzEmote>)
  datatype FfzRoomResponse = FfzRoomResponse(roomId: nat, roomSet: nat, sets: map<string, FfzSet>)
  datatype FfzGlobalResponse = FfzGlobalResponse(sets: map<string, FfzSet>)

  const FFZ_ROOM := "https://api.frankerfacez.com/v1/room/"
  const FFZ_GLOBAL := "https://api.frankerfacez.com/v1/set/global"

  /** The image URL of an FFZ emote: the largest of the `4`, `2` and `1`
      scales present, if any. */
  function FfzUrl(urls: map<string, string>): (r: Option<string>)
    ensures r.Some? <==> "4" in urls || "2" in urls || "1" in urls
    ensures r.Some? ==> r.value in urls.Values
    ensures "4" in urls ==> r == Some(urls["4"])
    ensures "4" !in urls && "2" in urls ==> r == Some(urls["2"])
  {
    if "4" in urls then Some(urls["4"])
    else if "2" in urls then Some(urls["2"])
    else if "1" in urls then Some(urls["1"])
    else None
  }

  /** An FFZ emote as data, tagged with the set it came from (if any). */
  function FfzData(e: FfzEmote, setId: Option<string>): (d: EmoteData)
    ensures d.id == NatToString(e.id) && d.name == e.name && d.url == FfzUrl(e.urls)
    ensures d.isAnimated == (e.animated == Some(true))
    ensures d.width == None && d.height == None && !d.isZeroWidth && !d.modifier && d.emoteSetId == setId
  {
    EmoteData(NatToString(e.id), e.name, FfzUrl(e.urls), e.animated.GetOr(false), None, None, false, false, setId)
  }

  /** The FFZ emotes of a room: those of the set named by the room's `set`,
      each tagged with that set; none when the set is missing. */
  function FfzRoomEmotes(resp: FfzRoomResponse): (r: seq<EmoteData>)
    ensures NatToString(resp.roomSet) !in resp.sets ==> r == []
    ensures forall i :: 0 <= i < |r| ==> r[i].emoteSetId == Some(NatToString(resp.roomSet))
  {
    var key := NatToString(resp.roomSet);
    if key in resp.sets then Converted(resp.sets[key].emoticons, e => FfzData(e, Some(key))) else []
  }

  /** `get_channel_emotes` of FrankerFaceZ: nothing for platforms other than
      Twitch; otherwise the emotes of the room's own set. */
  method FfzChannelEmotes(platform: string, channel: string, attempts: nat -> HttpOutcome<FfzRoomResponse>)
    returns (r: Result<seq<EmoteData>, EmoteError>)
    ensures platform != "twitch" ==> r == Ok([])
    ensures platform == "twitch" ==> r == MapFetched(Fetched(FFZ_ROOM + channel, attempts), FfzRoomEmotes)
  {
    if platform != "twitch" {
      return Ok([]);
    }
    var response, _ := GetJson(FFZ_ROOM + channel, attempts);
    if response.Err? {
      return Err(response.error);
    }
    var emotes: seq<EmoteData> := [];
    var key := NatToString(response.value.roomSet);
    if key in response.value.sets {
      emotes := ConvertAll(response.value.sets[key].emoticons, e => FfzData(e, Some(key)));
    }
    return Ok(emotes);
  }

  /** The emotes of the sets named in `order`, set after set. */
  function SetsAlong(sets: map<string, FfzSet>, order: seq<string>): seq<EmoteData>
    requires forall i :: 0 <= i < |order| ==> order[i] in sets
    decreases |order|
  {
    if order == [] then []
    else SetsAlong(sets, order[..|order| - 1]) + Converted(sets[order[|order| - 1]].emoticons, e => FfzData(e, None))
  }

  /** `order` lists every key of `sets` exactly once. */
  predicate Enumerates(order: seq<string>, sets: map<string, FfzSet>) {
    && (forall i, j :: 0 <= i < j < |order| ==> order[i] != order[j])
    && (forall i :: 0 <= i < |order| ==> order[i] in sets)
    && (forall k :: k in sets ==> k in order)
  }

  /** `get_global_emotes` of FrankerFaceZ: the emotes of every global set, set
      after set in the map's iteration order, none tagged with a set. */
  method FfzGlobalEmotes(attempts: nat -> HttpOutcome<FfzGlobalResponse>) returns (r: Result<seq<EmoteData>, EmoteError>)
    ensures Fetched(FFZ_GLOBAL, attempts).Err? ==> r == Err(Fetched(FFZ_GLOBAL, attempts).error)
    ensures Fetched(FFZ_GLOBAL, attempts).Ok? ==>
      var sets := Fetched(FFZ_GLOBAL, attempts).value.sets;
      r.Ok? && exists order :: Enumerates(order, sets) && r.value == SetsAlong(sets, order)
  {
    var response, _ := GetJson(FFZ_GLOBAL, attempts);
    if response.Err? {
      return Err(response.error);
    }
    var sets := response.value.sets;
    var emotes: seq<EmoteData> := [];
    var pending := sets.Keys;
    ghost var visited: seq<string> := [];
    while pending != {}
      invariant pending <= sets.Keys
      invariant forall i, j :: 0 <= i < j < |visited| ==> visited[i] != visited[j]
      invariant forall k :: k in visited <==> k in sets && k !in pending
      invariant emotes == SetsAlong(sets, visited)
      decreases |pending|
    {
      var key :| key in pending;
      var converted := ConvertAll(sets[key].emoticons, e => FfzData(e, None));
      assert (visited + [key])[..|visited|] == visited;
      emotes := emotes + converted;
      visited := visited + [key];
      pending := pending - {key};
    }
    assert Enumerates(visited, sets);
    return Ok(emotes);
  }

  // 7TV

  datatype SevenTvEmote = SevenTvEmote(id: string, name: string, dataName: string, flags: bv32, animated: bool)
  datatype SevenTvUserResponse = SevenTvUserResponse(emoteSet: Option<seq<SevenTvEmote>>)

  const SEVEN_TV_CDN := "https://cdn.7tv.app/emote/"
  const SEVEN_TV_USERS := "https://7tv.io/v3/users/twitch/"
  const SEVEN_TV_GLOBAL := "https://7tv.io/v3/emote-sets/global"

  /** Bit 0 of the flags marks a zero-width emote, bit 1 a modifier. */
  predicate ZeroWidthFlag(flags: bv32) { flags & 1 != 0 }
  predicate ModifierFlag(flags: bv32) { flags & 2 != 0 }

  /** The two flag bits read arithmetically: the flags are odd for a
      zero-width emote, and their half is odd for a modifier. */
  lemma FlagBits(flags: bv32)
    ensures ZeroWidthFlag(flags) <==> flags % 2 == 1
    ensures ModifierFlag(flags) <==> (flags / 2) % 2 == 1
  {
  }

  /** A 7TV emote as data: the 4x image, the flag bits decoded. */
  function SevenTvData(e: SevenTvEmote): (d: EmoteData)
    ensures d.id == e.id && d.name == e.name && d.url == Some(SEVEN_TV_CDN + e.id + "/4x")
    ensures d.isAnimated == e.animated && d.width == None && d.height == None && d.emoteSetId == None
    ensures d.isZeroWidth <==> ZeroWidthFlag(e.flags)
    ensures d.modifier <==> ModifierFlag(e.flags)
  {
    EmoteData(e.id, e.name, Some(SEVEN_TV_CDN + e.id + "/4x"), e.animated, None, None,
      ZeroWidthFlag(e.flags), ModifierFlag(e.flags), None)
  }

  function SevenTvUserEmotes(resp: SevenTvUserResponse): (r: seq<EmoteData>)
    ensures resp.emoteSet.None? ==> r == []
    ensures resp.emoteSet.Some? ==> |r| == |resp.emoteSet.value|
  {
    if resp.emoteSet.Some? then Converted(resp.emoteSet.value, SevenTvData) else []
  }

  /** `get_channel_emotes` of 7TV: nothing for platforms other than Twitch;
      otherwise the emotes of the user's active set, if it has one. */
  method SevenTvChannelEmotes(platform: string, channel: string, attempts: nat -> HttpOutcome<SevenTvUserResponse>)
    returns (r: Result<seq<EmoteData>, EmoteError>)
    ensures platform != "twitch" ==> r == Ok([])
    ensures platform == "twitch" ==> r == MapFetched(Fetched(SEVEN_TV_USERS + channel, attempts), SevenTvUserEmotes)
  {
    if platform != "twitch" {
      return Ok([]);
    }
    var response, _ := GetJson(SEVEN_TV_USERS + channel, attempts);
    if response.Err? {
      return Err(response.error);
    }
    var emotes: seq<EmoteData> := [];
    if response.value.emoteSet.Some? {
      emotes := ConvertAll(response.value.emoteSet.value, SevenTvData);
    }
    return Ok(emotes);
  }

  /** `get_global_emotes` of 7TV: every emote of the global set. */
  method SevenTvGlobalEmotes(attempts: nat -> HttpOutcome<seq<SevenTvEmote>>) returns (r: Result<seq<EmoteData>, EmoteError>)
    ensures r == MapFetched(Fetched(SEVEN_TV_GLOBAL, attempts), list => Converted(list, SevenTvData))
  {
    var response, _ := GetJson(SEVEN_TV_GLOBAL, attempts);
    if response.Err? {
      return Err(response.error);
    }
    var emotes := ConvertAll(response.value, SevenTvData);
    return Ok(emotes);
  }
}
