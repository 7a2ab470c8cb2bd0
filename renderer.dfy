/** The emote renderer of `src/emotes/renderer.rs`: where an emote's image
    lives, what format its bytes are in, whether it is small enough to show,
    and the renderer's clamped settings. */
module Renderer {
  import opened Wrappers
  import opened Connection

  datatype RenderError =
    | NetworkError(msg: string)
    | IoError(msg: string)
    | FormatError(msg: string)
    | CacheError(msg: string)
    | SizeError(msg: string)

  const TWITCH_CDN := "https://static-cdn.jtvnw.net/emoticons/v2/"
  const BTTV_CDN := "https://cdn.betterttv.net/emote/"
  const FFZ_CDN := "https://cdn.frankerfacez.com/emote/"
  const SEVEN_TV_CDN := "https://cdn.7tv.app/emote/"

  predicate IsTwitchSource(s: EmoteSource) { s == Twitch || s == TwitchGlobal || s == TwitchSubscriber }

  /** Whether a URL can be built for emotes of this source. */
  predicate HasCdn(s: EmoteSource) { IsTwitchSource(s) || s == BTTV || s == FFZ || s == SevenTV }

  /** `resolve_emote_url`: an explicit URL wins; otherwise the CDN address of
      the source family with the id filled in; other sources have none. */
  function ResolveEmoteUrl(e: Emote): (r: Result<string, RenderError>)
    ensures e.url.Some? ==> r == Ok(e.url.value)
    ensures r.Err? <==> e.url.None? && !HasCdn(e.source)
    ensures r.Err? ==> r.error == FormatError("Cannot determine URL for emote source")
    ensures e.url.None? && IsTwitchSource(e.source) ==> r == Ok(TWITCH_CDN + e.id + "/default/dark/1.0")
    ensures e.url.None? && e.source == BTTV ==> r == Ok(BTTV_CDN + e.id + "/3x")
    ensures e.url.None? && e.source == FFZ ==> r == Ok(FFZ_CDN + e.id + "/4")
    ensures e.url.None? && e.source == SevenTV ==> r == Ok(SEVEN_TV_CDN + e.id + "/4x")
  {
    if e.url.Some? then Ok(e.url.value)
    else match e.source
      case Twitch => Ok(TWITCH_CDN + e.id + "/default/dark/1.0")
      case TwitchGlobal => Ok(TWITCH_CDN + e.id + "/default/dark/1.0")
      case TwitchSubscriber => Ok(TWITCH_CDN + e.id + "/default/dark/1.0")
      case BTTV => Ok(BTTV_CDN + e.id + "/3x")
      case FFZ => Ok(FFZ_CDN + e.id + "/4")
      case SevenTV => Ok(SEVEN_TV_CDN + e.id + "/4x")
      case _ => Err(FormatError("Cannot determine URL for emote source"))
  }

  /** The text around the id in the CDN address of a source family. */
  function CdnAffixes(s: EmoteSource): (string, string)
    requires HasCdn(s)
  {
    if IsTwitchSource(s) then (TWITCH_CDN, "/default/dark/1.0")
    else if s == BTTV then (BTTV_CDN, "/3x")
    else if s == FFZ then (FFZ_CDN, "/4")
    else (SEVEN_TV_CDN, "/4x")
  }

  /** The URL of an emote without an explicit one names its id after the CDN
      prefix, so two emotes of one source family with different ids never share
      a URL. */
  lemma ResolvedUrlsDistinct(a: Emote, b: Emote)
    requires a.url.None? && b.url.None? && a.source == b.source && HasCdn(a.source)
    requires ResolveEmoteUrl(a) == ResolveEmoteUrl(b)
    ensures a.id == b.id
  {
    var (prefix, suffix) := CdnAffixes(a.source);
    var u := ResolveEmoteUrl(a).value;
    assert u == prefix + a.id + suffix == prefix + b.id + suffix;
    assert |a.id| == |b.id|;
    assert a.id == u[|prefix|..|prefix| + |a.id|];
    assert b.id == u[|prefix|..|prefix| + |b.id|];
  }

  // ---------------------------------------------------------------------------
  // Image format detection
  // ---------------------------------------------------------------------------

  /** The PNG file signature (section 3.1 of RFC 2083). */
  const PNG_SIGNATURE: seq<bv8> := [0x89, 0x50, 0x4E, 0x47, 0x0D, 0x0A, 0x1A, 0x0A]
  /** The GIF headers "GIF87a" and "GIF89a" (section 17 of the GIF89a specification). */
  const GIF87A: seq<bv8> := [0x47, 0x49, 0x46, 0x38, 0x37, 0x61]
  const GIF89A: seq<bv8> := [0x47, 0x49, 0x46, 0x38, 0x39, 0x61]
  /** "RIFF", the container WebP images use, and the "WEBP" form type. */
  const RIFF: seq<bv8> := [0x52, 0x49, 0x46, 0x46]
  const WEBP: seq<bv8> := [0x57, 0x45, 0x42, 0x50]
  /** The JPEG start-of-image marker and the first byte of the next marker. */
  const JPEG_SOI: seq<bv8> := [0xFF, 0xD8, 0xFF]

  const MIN_IMAGE_BYTES: nat := 8

  predicate BytesStartWith(data: seq<bv8>, p: seq<bv8>) { |p| <= |data| && data[..|p|] == p }

  /** `detect_image_format`: by magic bytes, tried in the order png, gif,
      RIFF (more than 12 bytes, `webp` when bytes 8..12 say so), jpg. */
  function DetectImageFormat(data: seq<bv8>): (r: Result<string, RenderError>)
    ensures |data| < MIN_IMAGE_BYTES ==> r == Err(FormatError("File too small"))
    ensures r.Ok? ==> r.value in {"png", "gif", "webp", "riff", "jpg"}
  {
    if |data| < MIN_IMAGE_BYTES then Err(FormatError("File too small"))
    else if BytesStartWith(data, PNG_SIGNATURE) then Ok("png")
    else if BytesStartWith(data, GIF87A) || BytesStartWith(data, GIF89A) then Ok("gif")
    else if BytesStartWith(data, RIFF) && |data| > 12 then
      if data[8..12] == WEBP then Ok("webp") else Ok("riff")
    else if BytesStartWith(data, JPEG_SOI) then Ok("jpg")
    else Err(FormatError("Unknown image format"))
  }

  /** The signatures begin with distinct bytes, so at most one of them matches
      and the order in which they are tried does not matter. */
  lemma SignaturesDisjoint(data: seq<bv8>)
    ensures BytesStartWith(data, PNG_SIGNATURE) ==>
      !BytesStartWith(data, GIF87A) && !BytesStartWith(data, GIF89A) && !BytesStartWith(data, RIFF) && !BytesStartWith(data, JPEG_SOI)
    ensures BytesStartWith(data, GIF87A) || BytesStartWith(data, GIF89A) ==>
      !BytesStartWith(data, RIFF) && !BytesStartWith(data, JPEG_SOI)
    ensures BytesStartWith(data, RIFF) ==> !BytesStartWith(data, JPEG_SOI)
  {
    if BytesStartWith(data, PNG_SIGNATURE) { assert data[0] == 0x89; }
    if BytesStartWith(data, GIF87A) { assert data[0] == 0x47; }
    if BytesStartWith(data, GIF89A) { assert data[0] == 0x47; }
    if BytesStartWith(data, RIFF) { assert data[0] == 0x52; }
  }

  /** Each answer of the format sniffer, characterised on its own terms: the
      signature that must be present, whatever else the data holds. */
  lemma DetectImageFormatIff(data: seq<bv8>)
    ensures DetectImageFormat(data) == Ok("png") <==> |data| >= 8 && BytesStartWith(data, PNG_SIGNATURE)
    ensures DetectImageFormat(data) == Ok("gif") <==>
      |data| >= 8 && (BytesStartWith(data, GIF87A) || BytesStartWith(data, GIF89A))
    ensures DetectImageFormat(data) == Ok("webp") <==>
      |data| > 12 && BytesStartWith(data, RIFF) && data[8..12] == WEBP
    ensures DetectImageFormat(data) == Ok("riff") <==>
      |data| > 12 && BytesStartWith(data, RIFF) && data[8..12] != WEBP
    ensures DetectImageFormat(data) == Ok("jpg") <==>
      |data| >= 8 && BytesStartWith(data, JPEG_SOI) && !(BytesStartWith(data, RIFF) && |data| > 12)
  {
    SignaturesDisjoint(data);
  }

  /** The PNG signature alone is recognised, and so is a GIF89a header padded to
      eight bytes; a RIFF header of only eight bytes is too short for the RIFF
      branch and falls through to an unknown format. */
  lemma DetectImageFormatExamples()
    ensures DetectImageFormat(PNG_SIGNATURE) == Ok("png")
    ensures DetectImageFormat(GIF89A + [0x5F, 0x5F]) == Ok("gif")
    ensures DetectImageFormat(RIFF + [0, 0, 0, 0]) == Err(FormatError("Unknown image format"))
  {
    assert (GIF89A + [0x5F, 0x5F])[..6] == GIF89A;
    var riff: seq<bv8> := RIFF + [0, 0, 0, 0];
    assert !BytesStartWith(riff, PNG_SIGNATURE) by { assert riff[0] != PNG_SIGNATURE[0]; }
    assert !BytesStartWith(riff, GIF87A) by { assert riff[0] != GIF87A[0]; }
    assert !BytesStartWith(riff, GIF89A) by { assert riff[0] != GIF89A[0]; }
    assert !BytesStartWith(riff, JPEG_SOI) by { assert riff[0] != JPEG_SOI[0]; }
  }

  // ---------------------------------------------------------------------------
  // Size checks
  // ---------------------------------------------------------------------------

  const MAX_IMAGE_BYTES: nat := 10 * 1024 * 1024
  const MAX_DIMENSION: nat := 1024

  /** Both dimensions known and one of them over the limit. */
  predicate TooLargeDimensions(e: Emote) {
    e.width.Some? && e.height.Some? && (e.width.value > MAX_DIMENSION || e.height.value > MAX_DIMENSION)
  }

  /** `process_image`: the data unchanged, unless it is over 10 MiB or the
      emote's known dimensions exceed 1024 pixels. */
  function ProcessImage(data: seq<bv8>, e: Emote): (r: Result<seq<bv8>, RenderError>)
    ensures r.Ok? <==> |data| <= MAX_IMAGE_BYTES && !TooLargeDimensions(e)
    ensures r.Ok? ==> r.value == data
    ensures |data| > MAX_IMAGE_BYTES ==> r == Err(SizeError("Image too large"))
    ensures |data| <= MAX_IMAGE_BYTES && TooLargeDimensions(e) ==> r == Err(SizeError("Image dimensions too large"))
  {
    if |data| > MAX_IMAGE_BYTES then Err(SizeError("Image too large"))
    else if e.width.Some? && e.height.Some? then
      if e.width.value > MAX_DIMENSION || e.height.value > MAX_DIMENSION then Err(SizeError("Image dimensions too large"))
      else Ok(data)
    else Ok(data)
  }

  /** `Ord::clamp`. */
  function Clamp(x: nat, lo: nat, hi: nat): (r: nat)
    requires lo <= hi
    ensures lo <= r <= hi
    ensures lo <= x <= hi ==> r == x
    ensures x < lo ==> r == lo
    ensures x > hi ==> r == hi
  {
    if x < lo then lo else if x > hi then hi else x
  }

  /** Clamping twice is clamping once. */
  lemma ClampIdempotent(x: nat, lo: nat, hi: nat)
    requires lo <= hi
    ensures Clamp(Clamp(x, lo, hi), lo, hi) == Clamp(x, lo, hi)
  {
  }

  const MIN_SIDE: nat := 8
  const MAX_SIDE: nat := 512
  const MIN_CACHE_MB: nat := 1
  const MAX_CACHE_MB: nat := 1000

  class EmoteRenderer {
    var maxCacheSizeMb: nat
    var supportedFormats: seq<string>
    var defaultSize: (nat, nat)

    /** `EmoteRenderer::new`: a 100 MB cache, png/gif/webp, 32x32 by default. */
    constructor ()
      ensures maxCacheSizeMb == 100 && supportedFormats == ["png", "gif", "webp"] && defaultSize == (32, 32)
      ensures Valid()
    {
      maxCacheSizeMb := 100;
      supportedFormats := ["png", "gif", "webp"];
      defaultSize := (32, 32);
    }

    /** The settings every setter keeps: sides within [8, 512] once set, the
        cache size within [1, 1000]. */
    predicate Valid()
      reads this
    {
      && MIN_SIDE <= defaultSize.0 <= MAX_SIDE && MIN_SIDE <= defaultSize.1 <= MAX_SIDE
      && MIN_CACHE_MB <= maxCacheSizeMb <= MAX_CACHE_MB
    }

    /** `set_default_size`: each side clamped to [8, 512]. */
    method SetDefaultSize(width: nat, height: nat)
      requires Valid()
      modifies this`defaultSize
      ensures Valid()
      ensures defaultSize == (Clamp(width, MIN_SIDE, MAX_SIDE), Clamp(height, MIN_SIDE, MAX_SIDE))
    {
      defaultSize := (Clamp(width, MIN_SIDE, MAX_SIDE), Clamp(height, MIN_SIDE, MAX_SIDE));
    }

    /** `set_max_cache_size`: clamped to [1, 1000] MB. */
    method SetMaxCacheSize(sizeMb: nat)
      requires Valid()
      modifies this`maxCacheSizeMb
      ensures Valid()
      ensures maxCacheSizeMb == Clamp(sizeMb, MIN_CACHE_MB, MAX_CACHE_MB)
    {
      maxCacheSizeMb := Clamp(sizeMb, MIN_CACHE_MB, MAX_CACHE_MB);
    }
  }
}
