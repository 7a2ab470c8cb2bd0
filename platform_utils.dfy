// The platform registry and the shared helpers of the platform layer: name
// sanitisers, channel extraction from URLs, the content check, the platform
// factory's lookup and the credential store.

module Platforms {
  import opened Wrappers
  import opened Text
  import Config
  import Connection
  import PlatformBase

  /** `PlatformError`. */
  datatype PlatformError =
    | UnsupportedPlatform(name: string)
    | ConfigError(msg: string)
    | AuthError(msg: string)
    | ConnectionError(msg: string)
    | ApiError(msg: string)
    | ParseError(msg: string)

  // ---------------------------------------------------------------------------
  // utils::sanitize_username
  // ---------------------------------------------------------------------------

  /** The characters of `s` that are letters, digits or `_`, in order. */
  function WordCharsOf(s: string): (r: string)
    ensures |r| <= |s|
    ensures forall j :: 0 <= j < |r| ==> IsWordChar(r[j])
  {
    if s == [] then []
    else (if IsWordChar(s[0]) then [s[0]] else []) + WordCharsOf(s[1..])
  }

  lemma {:induction false} WordCharsOfClean(s: string)
    requires forall j :: 0 <= j < |s| ==> IsWordChar(s[j])
    ensures WordCharsOf(s) == s
    decreases |s|
  {
    if s != [] {
      WordCharsOfClean(s[1..]);
      assert s == [s[0]] + s[1..];
    }
  }

  /** `sanitize_username`: drop every character that is not a letter, digit
      or `_`, then lowercase. */
  function SanitizeUsername(u: string): (r: string)
    ensures |r| <= |u|
    ensures forall j :: 0 <= j < |r| ==> IsWordChar(r[j]) && !IsUpper(r[j])
  {
    Lower(WordCharsOf(u))
  }

  /** A name made only of lowercase letters, digits and `_` is already
      sanitised. */
  lemma SanitizedNamesFixed(u: string)
    requires forall j :: 0 <= j < |u| ==> IsWordChar(u[j]) && !IsUpper(u[j])
    ensures SanitizeUsername(u) == u
  {
    WordCharsOfClean(u);
    assert forall j :: 0 <= j < |u| ==> Lower(u)[j] == u[j];
  }

  /** Sanitising twice is sanitising once. */
  lemma SanitizeUsernameIdempotent(u: string)
    ensures SanitizeUsername(SanitizeUsername(u)) == SanitizeUsername(u)
  {
    SanitizedNamesFixed(SanitizeUsername(u));
  }

  lemma {:induction false} WordCharsOfAppend(a: string, b: string)
    ensures WordCharsOf(a + b) == WordCharsOf(a) + WordCharsOf(b)
    decreases |a|
  {
    if a != [] {
      assert (a + b)[0] == a[0];
      assert (a + b)[1..] == a[1..] + b;
      WordCharsOfAppend(a[1..], b);
      var h := if IsWordChar(a[0]) then [a[0]] else [];
      assert WordCharsOf(a + b) == h + WordCharsOf(a[1..] + b);
      assert WordCharsOf(a) == h + WordCharsOf(a[1..]);
    } else {
      assert a + b == b;
    }
  }

  // ---------------------------------------------------------------------------
  // utils::sanitize_channel_name
  // ---------------------------------------------------------------------------

  /** The length of the leading run of `c` in `s`. */
  function LeadingRun(s: string, c: char): (n: nat)
    ensures n <= |s|
    ensures forall j :: 0 <= j < n ==> s[j] == c
    ensures n == |s| || s[n] != c
  {
    if s != [] && s[0] == c then 1 + LeadingRun(s[1..], c) else 0
  }

  /** `str::trim_start_matches(c)`: `s` without its leading run of `c`. */
  function TrimStart(s: string, c: char): string {
    s[LeadingRun(s, c)..]
  }

  /** `sanitize_channel_name`: drop the leading `@`s, then the leading `#`s,
      then lowercase. */
  function SanitizeChannelName(channel: string): (r: string)
    ensures |r| <= |channel|
    ensures forall j :: 0 <= j < |r| ==> !IsUpper(r[j])
  {
    Lower(TrimStart(TrimStart(channel, '@'), '#'))
  }

  /** A sanitised channel name never starts with `#`. */
  lemma SanitizedChannelNoHash(channel: string)
    ensures var r := SanitizeChannelName(channel); r == [] || r[0] != '#'
  {
    var t := TrimStart(TrimStart(channel, '@'), '#');
    if t != [] {
      assert SanitizeChannelName(channel)[0] == LowerChar(t[0]);
    }
  }

  /** One leading `@` and then one leading `#` are stripped. */
  lemma SanitizeChannelStrips(c: string)
    requires c == [] || (c[0] != '@' && c[0] != '#')
    ensures SanitizeChannelName("@#" + c) == Lower(c)
    ensures SanitizeChannelName("@" + c) == Lower(c)
    ensures SanitizeChannelName("#" + c) == Lower(c)
  {
    var h := "#" + c;
    TrimStartNone(c, '@');
    TrimStartNone(c, '#');
    TrimStartNone(h, '@');
    TrimStartCons('#', c);
    TrimStartCons('@', c);
    assert "@#" + c == ['@'] + h;
    TrimStartCons('@', h);
    assert "@" + c == ['@'] + c;
    assert h == ['#'] + c;
  }

  /** A leading `c` is trimmed with the rest of the run. */
  lemma TrimStartCons(c: char, s: string)
    ensures TrimStart([c] + s, c) == TrimStart(s, c)
  {
    assert ([c] + s)[1..] == s;
  }

  /** Without a leading `c` there is nothing to trim. */
  lemma TrimStartNone(s: string, c: char)
    requires s == [] || s[0] != c
    ensures TrimStart(s, c) == s
  {
  }

  /** A sanitised name can still start with `@`, so sanitising is not
      idempotent: the `@` behind a `#` survives the first pass and is stripped
      by the second. */
  lemma SanitizeChannelNotIdempotent()
    ensures SanitizeChannelName("#@x") == "@x"
    ensures SanitizeChannelName(SanitizeChannelName("#@x")) == "x"
  {
    assert TrimStart("#@x", '@') == "#@x";
    assert TrimStart("#@x", '#') == TrimStart("@x", '#') == "@x";
    assert Lower("@x") == "@x";
    SanitizeChannelStrips("x");
    assert Lower("x") == "x";
  }

  /** A name with no leading `@` or `#` only changes case. */
  lemma SanitizeChannelPlain(channel: string)
    requires channel == [] || (channel[0] != '@' && channel[0] != '#')
    ensures SanitizeChannelName(channel) == Lower(channel)
  {
  }

  /** Once a name has no leading `#`, `@` or uppercase letter, sanitising it
      again leaves it alone. */
  lemma SanitizeChannelFixed(channel: string)
    requires channel == [] || (channel[0] != '@' && channel[0] != '#')
    requires forall j :: 0 <= j < |channel| ==> !IsUpper(channel[j])
    ensures SanitizeChannelName(channel) == channel
  {
    assert forall j :: 0 <= j < |channel| ==> Lower(channel)[j] == channel[j];
  }

  /** Sanitising adds no `/`. */
  lemma SanitizeChannelNoSlash(channel: string)
    requires '/' !in channel
    ensures '/' !in SanitizeChannelName(channel)
  {
    var t := TrimStart(TrimStart(channel, '@'), '#');
    assert forall j | 0 <= j < |t| :: t[j] in channel;
  }

  // ---------------------------------------------------------------------------
  // utils::extract_channel_from_url
  // ---------------------------------------------------------------------------

  const TWITCH_MARKER := "twitch.tv/"
  const YOUTUBE_MARKER := "youtube.com/"
  const CHANNEL_MARKER := "/channel/"
  const CUSTOM_MARKER := "/c/"
  const HANDLE_MARKER := "/@"
  const KICK_MARKER := "kick.com/"

  /** `url.split(marker).collect()[1].split('/').next()`: the text after the
      first `marker`, cut at the next `marker` and then at the first `/`. */
  function Segment(url: string, marker: string): (r: string)
    requires |marker| > 0 && Contains(url, marker)
    ensures '/' !in r
  {
    FirstPiece(SecondPiece(url, marker), '/')
  }

  /** `extract_channel_from_url`: Twitch URLs first (sanitised), then YouTube
      URLs by `/channel/`, `/c/` or `/@`, then Kick URLs. */
  function ExtractChannelFromUrl(url: string): (r: Option<string>)
    ensures r.Some? ==> '/' !in r.value
    ensures r.Some? ==> Contains(url, TWITCH_MARKER) || Contains(url, YOUTUBE_MARKER) || Contains(url, KICK_MARKER)
    ensures Contains(url, TWITCH_MARKER) ==> r.Some?
    ensures !Contains(url, TWITCH_MARKER) && !Contains(url, YOUTUBE_MARKER) ==> (r.Some? <==> Contains(url, KICK_MARKER))
  {
    if Contains(url, TWITCH_MARKER) then
      SanitizeChannelNoSlash(Segment(url, TWITCH_MARKER));
      Some(SanitizeChannelName(Segment(url, TWITCH_MARKER)))
    else if Contains(url, YOUTUBE_MARKER) then
      if Contains(url, CHANNEL_MARKER) then Some(Segment(url, CHANNEL_MARKER))
      else if Contains(url, CUSTOM_MARKER) then Some(Segment(url, CUSTOM_MARKER))
      else if Contains(url, HANDLE_MARKER) then Some(Segment(url, HANDLE_MARKER))
      else None
    else if Contains(url, KICK_MARKER) then Some(Segment(url, KICK_MARKER))
    else None
  }

  /** A marker ending in `/` cannot occur across the boundary into text that
      holds no `/`. */
  lemma MarkerStaysLeft(p: string, c: string, m: string)
    requires |m| > 0 && m[|m| - 1] == '/' && '/' !in c
    ensures Contains(p + c, m) <==> Contains(p, m)
  {
    if Contains(p + c, m) {
      var i: nat :| i <= |p + c| && OccursAt(p + c, m, i);
      assert (p + c)[i + |m| - 1] == '/';
      if i + |m| > |p| {
        assert false;
      }
      assert (p + c)[i..i + |m|] == p[i..i + |m|];
      assert OccursAt(p, m, i);
    }
    if Contains(p, m) {
      var i: nat :| i <= |p| && OccursAt(p, m, i);
      assert (p + c)[i..i + |m|] == p[i..i + |m|];
      assert OccursAt(p + c, m, i);
    }
  }

  /** The segment after the only occurrence of `m`, which ends `p`, is the
      whole of a `/`-free tail. */
  lemma SegmentOfTail(p: string, c: string, m: string)
    requires |m| > 0 && m[|m| - 1] == '/' && '/' !in c
    requires |m| <= |p| && p[|p| - |m|..] == m
    requires forall j: nat :: j < |p| - |m| ==> !OccursAt(p, m, j)
    ensures Contains(p + c, m) && Segment(p + c, m) == c
  {
    var url := p + c;
    assert url[|p| - |m|..|p|] == m;
    assert OccursAt(url, m, |p| - |m|);
    forall j: nat | j < |p| - |m| ensures !OccursAt(url, m, j) {
      assert !OccursAt(p, m, j);
      assert url[j..j + |m|] == p[j..j + |m|];
    }
    assert Find(url, m) == Some(|p| - |m|);
    assert url[|p|..] == c;
    MarkerStaysLeft([], c, m);
    assert [] + c == c;
    assert !Contains([], m);
    assert Find(c, m).None?;
  }

  /** `https://twitch.tv/<name>` gives the sanitised name. */
  lemma TwitchUrlChannel(c: string)
    requires '/' !in c
    ensures ExtractChannelFromUrl("https://twitch.tv/" + c) == Some(SanitizeChannelName(c))
  {
    var p := "https://twitch.tv/";
    forall j: nat | j < |p| - |TWITCH_MARKER| ensures !OccursAt(p, TWITCH_MARKER, j) {
      assert p[j + 1] != TWITCH_MARKER[1] || p[j] != TWITCH_MARKER[0];
    }
    SegmentOfTail(p, c, TWITCH_MARKER);
  }

  const KICK_URL_PREFIX := "https://kick.com/"

  lemma KickPrefixNotTwitch()
    ensures !Contains(KICK_URL_PREFIX, TWITCH_MARKER)
  {
    var p := KICK_URL_PREFIX;
    forall j: nat | j + |TWITCH_MARKER| <= |p| ensures !OccursAt(p, TWITCH_MARKER, j) {
      assert p[j + 1] != TWITCH_MARKER[1] || p[j] != TWITCH_MARKER[0];
    }
  }

  lemma KickPrefixNotYouTube()
    ensures !Contains(KICK_URL_PREFIX, YOUTUBE_MARKER)
  {
    var p := KICK_URL_PREFIX;
    forall j: nat | j + |YOUTUBE_MARKER| <= |p| ensures !OccursAt(p, YOUTUBE_MARKER, j) {
      assert p[j] != YOUTUBE_MARKER[0];
    }
  }

  /** `https://kick.com/<name>` gives the name as written. */
  lemma KickUrlChannel(c: string)
    requires '/' !in c
    ensures ExtractChannelFromUrl(KICK_URL_PREFIX + c) == Some(c)
  {
    var p := KICK_URL_PREFIX;
    forall j: nat | j < |p| - |KICK_MARKER| ensures !OccursAt(p, KICK_MARKER, j) {
      assert p[j] != KICK_MARKER[0];
    }
    SegmentOfTail(p, c, KICK_MARKER);
    KickPrefixNotTwitch();
    KickPrefixNotYouTube();
    MarkerStaysLeft(p, c, TWITCH_MARKER);
    MarkerStaysLeft(p, c, YOUTUBE_MARKER);
  }

  /** A YouTube URL with none of `/channel/`, `/c/`, `/@` names no channel,
      even if it also mentions Kick. */
  lemma YouTubeWithoutPathHasNoChannel(url: string)
    requires !Contains(url, TWITCH_MARKER) && Contains(url, YOUTUBE_MARKER)
    requires !Contains(url, CHANNEL_MARKER) && !Contains(url, CUSTOM_MARKER) && !Contains(url, HANDLE_MARKER)
    ensures ExtractChannelFromUrl(url) == None
  {
  }

  // ---------------------------------------------------------------------------
  // utils::validate_message_content
  // ---------------------------------------------------------------------------

  /** What `validate_message_content` accepts: a length within the bounds that
      are set, and no blocked word in any case. */
  predicate ContentValid(content: string, f: Config.MessageFilters) {
    && (f.minMessageLength.None? || |content| >= f.minMessageLength.value)
    && (f.maxMessageLength.None? || |content| <= f.maxMessageLength.value)
    && !PlatformBase.Blocks(content, f.blockedWords)
  }

  /** `validate_message_content`. */
  method ValidateMessageContent(content: string, f: Config.MessageFilters) returns (ok: bool)
    ensures ok <==> ContentValid(content, f)
  {
    if f.minMessageLength.Some? && |content| < f.minMessageLength.value {
      return false;
    }
    if f.maxMessageLength.Some? && |content| > f.maxMessageLength.value {
      return false;
    }
    var contentLower := Lower(content);
    for k := 0 to |f.blockedWords|
      invariant forall j :: 0 <= j < k ==> !ContainsIgnoreCase(content, f.blockedWords[j])
    {
      if Contains(contentLower, Lower(f.blockedWords[k])) {
        return false;
      }
    }
    return true;
  }

  /** A message that passes the platform's message filters has valid content:
      the content check is the author-free part of that filter. */
  lemma FiltersImplyValidContent(m: Connection.ChatMessage, f: Config.MessageFilters)
    requires PlatformBase.PassesFilters(m, f)
    ensures ContentValid(m.content, f)
  {
  }

  /** The converse fails only on the author lists and the command rule. */
  lemma ValidContentPassesOpenAuthorFilters(m: Connection.ChatMessage, f: Config.MessageFilters)
    requires ContentValid(m.content, f)
    requires f.blockedUsers == [] && f.allowedUsers == [] && !f.commandsOnly
    ensures PlatformBase.PassesFilters(m, f)
  {
  }

  /** An empty blocked word is contained in everything, so it rejects every
      message. */
  lemma EmptyBlockedWordRejects(content: string, f: Config.MessageFilters)
    requires [] in f.blockedWords
    ensures !ContentValid(content, f)
  {
    var k :| 0 <= k < |f.blockedWords| && f.blockedWords[k] == [];
    EmptyContained(Lower(content));
    assert ContainsIgnoreCase(content, f.blockedWords[k]);
  }

  // ---------------------------------------------------------------------------
  // PlatformFactory
  // ---------------------------------------------------------------------------

  /** The platform creators that can be registered; only Twitch's is built in.
      What a creator builds is not part of this model. */
  datatype Creator = TwitchCreator | CustomCreator(id: string)

  /** `PlatformFactory`: creators by platform name. */
  class PlatformFactory {
    var platforms: map<string, Creator>

    /** `new` registers the Twitch creator only. */
    constructor ()
      ensures platforms == map["twitch" := TwitchCreator]
    {
      platforms := map["twitch" := TwitchCreator];
    }

    /** `register_platform` overwrites any creator under the same name. */
    method RegisterPlatform(name: string, creator: Creator)
      modifies this
      ensures platforms == old(platforms)[name := creator]
    {
      platforms := platforms[name := creator];
    }

    /** The lookup step of `create_platform`: the creator that builds the
        platform, or `UnsupportedPlatform` naming it. */
    function CreatePlatform(platformType: string): (r: Result<Creator, PlatformError>)
      reads this
      ensures platformType !in platforms <==> r == Err(UnsupportedPlatform(platformType))
      ensures r.Ok? ==> platformType in platforms && r.value == platforms[platformType]
    {
      if platformType in platforms then Ok(platforms[platformType])
      else Err(UnsupportedPlatform(platformType))
    }

    /** `list_supported_platforms`, as a set since map order is unspecified. */
    function SupportedPlatforms(): (r: set<string>)
      reads this
      ensures forall name :: name in r <==> CreatePlatform(name).Ok?
    {
      platforms.Keys
    }
  }

  /** A fresh factory builds Twitch and refuses Kick and YouTube. */
  method FreshFactoryPlatforms() returns (f: PlatformFactory)
    ensures f.CreatePlatform("twitch") == Ok(TwitchCreator)
    ensures f.CreatePlatform("kick") == Err(UnsupportedPlatform("kick"))
    ensures f.CreatePlatform("youtube") == Err(UnsupportedPlatform("youtube"))
  {
    f := new PlatformFactory();
  }

  // ---------------------------------------------------------------------------
  // CredentialManager
  // ---------------------------------------------------------------------------

  /** `CredentialManager`: credentials by platform name. */
  class CredentialManager {
    var credentials: map<string, Config.Credentials>

    constructor ()
      ensures credentials == map[]
    {
      credentials := map[];
    }

    /** `store_credentials` overwrites. */
    method StoreCredentials(platform: string, creds: Config.Credentials)
      modifies this
      ensures credentials == old(credentials)[platform := creds]
      ensures GetCredentials(platform) == Some(creds)
    {
      credentials := credentials[platform := creds];
    }

    /** `get_credentials`. */
    function GetCredentials(platform: string): (r: Option<Config.Credentials>)
      reads this
      ensures r.Some? <==> platform in credentials
      ensures r.Some? ==> r.value == credentials[platform]
    {
      if platform in credentials then Some(credentials[platform]) else None
    }

    /** `remove_credentials`: reports whether there was anything to remove. */
    method RemoveCredentials(platform: string) returns (removed: bool)
      modifies this
      ensures removed <==> platform in old(credentials)
      ensures credentials == old(credentials) - {platform}
      ensures GetCredentials(platform) == None
    {
      removed := platform in credentials;
      credentials := credentials - {platform};
    }

    /** `list_platforms`, as a set. */
    function ListPlatforms(): (r: set<string>)
      reads this
      ensures forall p :: p in r <==> GetCredentials(p).Some?
    {
      credentials.Keys
    }
  }

  /** Storing and then removing reports a removal and forgets the platform,
      while the other platforms keep their credentials. */
  method StoreThenRemove(cm: CredentialManager, platform: string, creds: Config.Credentials, other: string)
      returns (removed: bool)
    requires other != platform
    modifies cm
    ensures removed
    ensures cm.GetCredentials(platform) == None
    ensures cm.GetCredentials(other) == old(cm.GetCredentials(other))
  {
    cm.StoreCredentials(platform, creds);
    removed := cm.RemoveCredentials(platform);
  }
}
