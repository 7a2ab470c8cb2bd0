/** The message transformer of `src/mapping/message_transformer.rs`: the
    normalisation steps, the system-message filter and the custom transforms a
    `MappingConfig` names, plus the two pluggable transforms the file defines
    (`ContentFilter`, `UserLevelPrefix`). */
module Transformer {
  import opened Wrappers
  import opened Text
  import opened Json
  import Connection
  import opened MappingTypes

  type Msg = StandardizedMessage

  /** The regex engine, which is not part of this model:
      `re(pattern, text, replacement)` is `Err(reason)` when the pattern does
      not compile and otherwise `text` with every match replaced. */
  type RegexReplace = (string, string, string) -> Result<string, string>

  // ---------------------------------------------------------------------------
  // Normalisation and the system filter
  // ---------------------------------------------------------------------------

  function LowerOpt(s: Option<string>): Option<string> {
    if s.Some? then Some(Lower(s.value)) else None
  }

  /** `normalize_username`: user name and display name lowercased. */
  function NormalizeUsername(m: Msg): (r: Msg)
    ensures r.username == Lower(m.username) && r.displayName == LowerOpt(m.displayName)
    ensures r.(username := m.username, displayName := m.displayName) == m
  {
    m.(username := Lower(m.username), displayName := LowerOpt(m.displayName))
  }

  /** `normalize_channel`: only the channel lowercased. */
  function NormalizeChannel(m: Msg): (r: Msg)
    ensures r.channel == Lower(m.channel) && r.(channel := m.channel) == m
  {
    m.(channel := Lower(m.channel))
  }

  lemma NormalizeIdempotent(m: Msg)
    ensures NormalizeUsername(NormalizeUsername(m)) == NormalizeUsername(m)
    ensures NormalizeChannel(NormalizeChannel(m)) == NormalizeChannel(m)
  {
    LowerIdempotent(m.username);
    LowerIdempotent(m.channel);
    if m.displayName.Some? { LowerIdempotent(m.displayName.value); }
  }

  /** `is_system_message`: the System type, or the user "system" in any case. */
  predicate IsSystemMessage(m: Msg) {
    m.messageType == MappedMessageType.System || Lower(m.username) == "system"
  }

  /** Normalising names never changes whether a message counts as a system
      message, so the filter sees the same verdict before and after. */
  lemma SystemVerdictStable(m: Msg)
    ensures IsSystemMessage(NormalizeUsername(m)) == IsSystemMessage(m)
    ensures IsSystemMessage(NormalizeChannel(m)) == IsSystemMessage(m)
  {
    LowerIdempotent(m.username);
  }

  /** The message after the steps of `transform` that come before the filter:
      the optional normalisations; the timestamp step is the identity. */
  function Prepared(m: Msg, config: MappingConfig): (r: Msg)
    ensures r.username == (if config.normalizeUsernames then Lower(m.username) else m.username)
    ensures r.channel == (if config.normalizeChannels then Lower(m.channel) else m.channel)
    ensures r.displayName == (if config.normalizeUsernames then LowerOpt(m.displayName) else m.displayName)
    ensures r.content == m.content && r.emotes == m.emotes && r.platform == m.platform
    ensures r == m.(username := r.username, displayName := r.displayName, channel := r.channel)
  {
    var a := if config.normalizeUsernames then NormalizeUsername(m) else m;
    if config.normalizeChannels then NormalizeChannel(a) else a
  }

  // ---------------------------------------------------------------------------
  // Small string operations
  // ---------------------------------------------------------------------------

  function Stars(n: nat): (r: string)
    ensures |r| == n && forall i :: 0 <= i < n ==> r[i] == '*'
  {
    seq(n, _ => '*')
  }

  /** `anonymize_username`: all stars up to two characters; otherwise the first
      character kept and every other one a star. */
  function Anonymize(u: string): (r: string)
    ensures |r| == |u|
    ensures |u| <= 2 ==> forall i :: 0 <= i < |r| ==> r[i] == '*'
    ensures |u| > 2 ==> r[0] == u[0] && forall i :: 1 <= i < |r| ==> r[i] == '*'
  {
    if |u| <= 2 then Stars(|u|) else u[..1] + Stars(|u| - 2) + "*"
  }

  lemma AnonymizeIdempotent(u: string)
    ensures Anonymize(Anonymize(u)) == Anonymize(u)
  {
    var a := Anonymize(u);
    assert forall i :: 0 <= i < |a| ==> Anonymize(a)[i] == a[i];
  }

  /** "username" keeps its length: one letter and seven stars. */
  lemma AnonymizeExamples()
    ensures Anonymize("username") == "u*******"
    ensures Anonymize("ab") == "**" && Anonymize("a") == "*"
  {
    assert Stars(6) == "******";
    assert Stars(2) == "**";
    assert Stars(1) == "*";
  }

  /** The `case: "title"` transform: a character is upper-cased at the start
      and after a space, lower-cased elsewhere. */
  function TitleCase(s: string): (r: string)
    ensures |r| == |s|
  {
    seq(|s|, i requires 0 <= i < |s| => if i == 0 || s[i - 1] == ' ' then UpperChar(s[i]) else LowerChar(s[i]))
  }

  lemma TitleCaseIdempotent(s: string)
    ensures TitleCase(TitleCase(s)) == TitleCase(s)
  {
    var t := TitleCase(s);
    forall i | 0 <= i < |s| ensures TitleCase(t)[i] == t[i] {
      var c := s[i];
      assert LowerChar(LowerChar(c)) == LowerChar(c) && UpperChar(UpperChar(c)) == UpperChar(c);
      if i > 0 {
        var p := s[i - 1];
        assert t[i - 1] == UpperChar(p) || t[i - 1] == LowerChar(p);
        assert (t[i - 1] == ' ') == (p == ' ');
      }
    }
  }

  /** `filter_words`: each listed string, in order, replaced in the content;
      entries that are not strings are skipped. */
  function FilterWords(content: string, words: seq<Json>, replacement: string): string
    decreases |words|
  {
    if words == [] then content
    else
      var next := if words[0].Str? then Replace(content, words[0].s, replacement) else content;
      FilterWords(next, words[1..], replacement)
  }

  /** Words that do not occur leave the content as it was. */
  lemma {:induction false} FilterWordsAbsent(content: string, words: seq<Json>, replacement: string)
    requires forall i :: 0 <= i < |words| && words[i].Str? ==> words[i].s != [] && !Contains(content, words[i].s)
    ensures FilterWords(content, words, replacement) == content
    decreases |words|
  {
    if words != [] {
      if words[0].Str? { ReplaceAbsent(content, words[0].s, replacement); }
      FilterWordsAbsent(content, words[1..], replacement);
    }
  }

  // ---------------------------------------------------------------------------
  // Content, user and emote transforms
  // ---------------------------------------------------------------------------

  function TypeOf(t: Json): Option<string> { GetStr(t, "type") }

  predicate IsContentType(ty: string) {
    ty in {"replace", "regex_replace", "filter_words", "case_transform", "prepend", "append"}
  }

  /** A `regex_replace` transform whose pattern the engine refuses. */
  predicate BadRegex(t: Json, content: string, re: RegexReplace) {
    && TypeOf(t) == Some("regex_replace")
    && GetStr(t, "pattern").Some? && GetStr(t, "replacement").Some?
    && re(GetStr(t, "pattern").value, content, GetStr(t, "replacement").value).Err?
  }

  function CaseTransform(content: string, caseType: string): string {
    if caseType == "upper" then Upper(content)
    else if caseType == "lower" then Lower(content)
    else if caseType == "title" then TitleCase(content)
    else content
  }

  /** `apply_content_transform`: one transform object applied to the content.
      Only the content can change; an unknown type is an error, a missing
      type changes nothing. */
  function ContentTransform(m: Msg, t: Json, re: RegexReplace): (r: Result<Msg, MappingError>)
    ensures r.Ok? ==> r.value == m.(content := r.value.content)
    ensures r.Err? <==> TypeOf(t).Some? && (!IsContentType(TypeOf(t).value) || BadRegex(t, m.content, re))
    ensures TypeOf(t).Some? && !IsContentType(TypeOf(t).value) ==>
      r == Err(ValidationError("Unknown content transform type: " + TypeOf(t).value))
    ensures TypeOf(t).None? ==> r == Ok(m)
    ensures TypeOf(t) == Some("replace") && GetStr(t, "from").Some? && GetStr(t, "to").Some? ==>
      r.Ok? && r.value.content == Replace(m.content, GetStr(t, "from").value, GetStr(t, "to").value)
    ensures TypeOf(t) == Some("prepend") && GetStr(t, "prefix").Some? ==>
      r.Ok? && r.value.content == GetStr(t, "prefix").value + " " + m.content
    ensures TypeOf(t) == Some("append") && GetStr(t, "suffix").Some? ==>
      r.Ok? && r.value.content == m.content + " " + GetStr(t, "suffix").value
  {
    match TypeOf(t)
    case None => Ok(m)
    case Some(ty) =>
      if ty == "replace" then
        if GetStr(t, "from").Some? && GetStr(t, "to").Some? then
          Ok(m.(content := Replace(m.content, GetStr(t, "from").value, GetStr(t, "to").value)))
        else Ok(m)
      else if ty == "regex_replace" then
        if GetStr(t, "pattern").Some? && GetStr(t, "replacement").Some? then
          match re(GetStr(t, "pattern").value, m.content, GetStr(t, "replacement").value)
          case Err(e) => Err(ParseError("Invalid regex: " + e))
          case Ok(c) => Ok(m.(content := c))
        else Ok(m)
      else if ty == "filter_words" then
        match t.Get("words")
        case Some(Array(words)) =>
          var replacement := GetStr(t, "replacement").GetOr("***");
          Ok(m.(content := FilterWords(m.content, words, replacement)))
        case _ => Ok(m)
      else if ty == "case_transform" then
        if GetStr(t, "case").Some? then Ok(m.(content := CaseTransform(m.content, GetStr(t, "case").value)))
        else Ok(m)
      else if ty == "prepend" then
        if GetStr(t, "prefix").Some? then Ok(m.(content := GetStr(t, "prefix").value + " " + m.content)) else Ok(m)
      else if ty == "append" then
        if GetStr(t, "suffix").Some? then Ok(m.(content := m.content + " " + GetStr(t, "suffix").value)) else Ok(m)
      else Err(ValidationError("Unknown content transform type: " + ty))
  }

  /** `filter_words` without a `replacement` masks with three stars. */
  lemma FilterWordsDefaultMask(m: Msg, t: Json, words: seq<Json>, re: RegexReplace)
    requires TypeOf(t) == Some("filter_words") && t.Get("words") == Some(Array(words))
    requires GetStr(t, "replacement").None?
    ensures ContentTransform(m, t, re) == Ok(m.(content := FilterWords(m.content, words, "***")))
  {
  }

  /** The same function applied to user name and display name. */
  function OnNames(m: Msg, f: string -> string): (r: Msg)
    ensures r.username == f(m.username)
    ensures r.displayName.Some? == m.displayName.Some?
    ensures m.displayName.Some? ==> r.displayName.value == f(m.displayName.value)
    ensures r.(username := m.username, displayName := m.displayName) == m
  {
    m.(username := f(m.username), displayName := if m.displayName.Some? then Some(f(m.displayName.value)) else None)
  }

  predicate IsUserType(ty: string) { ty in {"replace", "prefix", "suffix", "anonimize"} }

  /** `apply_user_transform`: the same rewrite on user name and display name;
      an unknown type is an error, a missing type changes nothing. */
  function UserTransform(m: Msg, t: Json): (r: Result<Msg, MappingError>)
    ensures r.Ok? ==> r.value.(username := m.username, displayName := m.displayName) == m
    ensures r.Ok? ==> r.value.displayName.Some? == m.displayName.Some?
    ensures r.Err? <==> TypeOf(t).Some? && !IsUserType(TypeOf(t).value)
    ensures r.Err? ==> r.error == ValidationError("Unknown user transform type: " + TypeOf(t).value)
    ensures TypeOf(t) == Some("anonimize") ==>
      r.Ok? && |r.value.username| == |m.username| && r.value.username == Anonymize(m.username)
    ensures TypeOf(t) == Some("prefix") && GetStr(t, "prefix").Some? ==>
      r.Ok? && r.value.username == GetStr(t, "prefix").value + m.username
  {
    match TypeOf(t)
    case None => Ok(m)
    case Some(ty) =>
      if ty == "replace" then
        if GetStr(t, "from").Some? && GetStr(t, "to").Some? then
          var from, to := GetStr(t, "from").value, GetStr(t, "to").value;
          Ok(OnNames(m, s => Replace(s, from, to)))
        else Ok(m)
      else if ty == "prefix" then
        if GetStr(t, "prefix").Some? then var p := GetStr(t, "prefix").value; Ok(OnNames(m, s => p + s)) else Ok(m)
      else if ty == "suffix" then
        if GetStr(t, "suffix").Some? then var x := GetStr(t, "suffix").value; Ok(OnNames(m, s => s + x)) else Ok(m)
      else if ty == "anonimize" then Ok(OnNames(m, Anonymize))
      else Err(ValidationError("Unknown user transform type: " + ty))
  }

  /** The strings of a JSON array, in order (`filter_map(as_str)`). */
  function StrItems(items: seq<Json>): (r: seq<string>)
    ensures forall s :: s in r <==> Str(s) in items
  {
    if items == [] then []
    else (if items[0].Str? then [items[0].s] else []) + StrItems(items[1..])
  }

  /** `emotes.retain(|e| !names.contains(&e.name))`. */
  function FilterEmotes(es: seq<Connection.Emote>, names: seq<string>): (r: seq<Connection.Emote>)
    ensures |r| <= |es|
  {
    if es == [] then []
    else (if es[0].name in names then [] else [es[0]]) + FilterEmotes(es[1..], names)
  }

  /** Exactly the emotes whose name is not listed survive. */
  lemma {:induction false} FilterEmotesMembers(es: seq<Connection.Emote>, names: seq<string>)
    ensures forall e :: e in FilterEmotes(es, names) <==> e in es && e.name !in names
  {
    if es != [] {
      FilterEmotesMembers(es[1..], names);
      assert es == [es[0]] + es[1..];
    }
  }

  /** Filtering keeps the relative order: it distributes over concatenation. */
  lemma {:induction false} FilterEmotesAppend(a: seq<Connection.Emote>, b: seq<Connection.Emote>, names: seq<string>)
    ensures FilterEmotes(a + b, names) == FilterEmotes(a, names) + FilterEmotes(b, names)
  {
    if a == [] {
      assert a + b == b;
    } else {
      var head := if a[0].name in names then [] else [a[0]];
      assert (a + b)[0] == a[0];
      assert (a + b)[1..] == a[1..] + b;
      FilterEmotesAppend(a[1..], b, names);
      calc {
        FilterEmotes(a + b, names);
        head + FilterEmotes(a[1..] + b, names);
        head + (FilterEmotes(a[1..], names) + FilterEmotes(b, names));
        (head + FilterEmotes(a[1..], names)) + FilterEmotes(b, names);
        FilterEmotes(a, names) + FilterEmotes(b, names);
      }
    }
  }

  function RenameEmotes(es: seq<Connection.Emote>, from: string, to: string): (r: seq<Connection.Emote>)
    ensures |r| == |es|
    ensures forall i :: 0 <= i < |es| ==> r[i] == es[i].(name := if es[i].name == from then to else es[i].name)
  {
    seq(|es|, i requires 0 <= i < |es| => if es[i].name == from then es[i].(name := to) else es[i])
  }

  const U32_MAX: nat := 0xFFFF_FFFF

  /** A float-to-`u32` cast of an exact value: negative values give 0, values
      past the range saturate. */
  function SaturateU32(x: int): (r: nat)
    ensures r <= U32_MAX
    ensures 0 <= x <= U32_MAX ==> r == x
  {
    if x < 0 then 0 else if x > U32_MAX then U32_MAX else x
  }

  /** The `scale` transform with an integral factor: emotes whose width and
      height are both known get both multiplied. */
  function ScaleEmotes(es: seq<Connection.Emote>, factor: int): (r: seq<Connection.Emote>)
    ensures |r| == |es|
  {
    seq(|es|, i requires 0 <= i < |es| =>
      if es[i].width.Some? && es[i].height.Some? then
        es[i].(width := Some(SaturateU32(es[i].width.value * factor)), height := Some(SaturateU32(es[i].height.value * factor)))
      else es[i])
  }

  predicate IsEmoteType(ty: string) { ty in {"filter", "replace", "scale"} }

  /** `apply_emote_transforms`: only the emote list can change. */
  function EmoteTransform(m: Msg, t: Json): (r: Result<Msg, MappingError>)
    ensures r.Ok? ==> r.value == m.(emotes := r.value.emotes)
    ensures r.Err? <==> TypeOf(t).Some? && !IsEmoteType(TypeOf(t).value)
    ensures r.Err? ==> r.error == ValidationError("Unknown emote transform type: " + TypeOf(t).value)
    ensures TypeOf(t) == Some("filter") && t.Get("emotes").Some? && t.Get("emotes").value.Array? ==>
      r.Ok? && forall e :: e in r.value.emotes <==> e in m.emotes && Str(e.name) !in t.Get("emotes").value.items
  {
    match TypeOf(t)
    case None => Ok(m)
    case Some(ty) =>
      if ty == "filter" then
        match t.Get("emotes")
        case Some(Array(items)) =>
          FilterEmotesMembers(m.emotes, StrItems(items));
          Ok(m.(emotes := FilterEmotes(m.emotes, StrItems(items))))
        case _ => Ok(m)
      else if ty == "replace" then
        if GetStr(t, "from").Some? && GetStr(t, "to").Some? then
          Ok(m.(emotes := RenameEmotes(m.emotes, GetStr(t, "from").value, GetStr(t, "to").value)))
        else Ok(m)
      else if ty == "scale" then
        match t.Get("scale")
        case Some(Number(n)) => Ok(m.(emotes := ScaleEmotes(m.emotes, n)))
        case _ => Ok(m)
      else Err(ValidationError("Unknown emote transform type: " + ty))
  }

  /** After renaming `from` to a different name, no emote is called `from`. */
  lemma RenameRemovesName(m: Msg, t: Json)
    requires TypeOf(t) == Some("replace") && GetStr(t, "from").Some? && GetStr(t, "to").Some?
    requires GetStr(t, "from") != GetStr(t, "to")
    ensures EmoteTransform(m, t).Ok?
    ensures forall e :: e in EmoteTransform(m, t).value.emotes ==> e.name != GetStr(t, "from").value
  {
  }

  // ---------------------------------------------------------------------------
  // User levels
  // ---------------------------------------------------------------------------

  /** Position of a level in Normal < Subscriber < Vip < Moderator <
      Broadcaster < Staff < Admin < GlobalModerator; Unknown sits with Normal. */
  function Rank(l: UserLevel): nat {
    match l
    case Normal => 0
    case Subscriber => 1
    case Vip => 2
    case Moderator => 3
    case Broadcaster => 4
    case Staff => 5
    case Admin => 6
    case GlobalModerator => 7
    case Unknown => 0
  }

  /** `user_level_satisfies`, written as the table of the source: each
      required level lists the current levels that meet it. */
  predicate UserLevelSatisfies(current: UserLevel, required: UserLevel) {
    match required
    case Normal => true
    case Subscriber => current in {UserLevel.Subscriber, UserLevel.Vip, UserLevel.Moderator, UserLevel.Broadcaster,
                                   UserLevel.Staff, UserLevel.Admin, UserLevel.GlobalModerator}
    case Vip => current in {UserLevel.Vip, UserLevel.Moderator, UserLevel.Broadcaster,
                            UserLevel.Staff, UserLevel.Admin, UserLevel.GlobalModerator}
    case Moderator => current in {UserLevel.Moderator, UserLevel.Broadcaster,
                                  UserLevel.Staff, UserLevel.Admin, UserLevel.GlobalModerator}
    case Broadcaster => current in {UserLevel.Broadcaster, UserLevel.Staff, UserLevel.Admin, UserLevel.GlobalModerator}
    case Staff => current in {UserLevel.Staff, UserLevel.Admin, UserLevel.GlobalModerator}
    case Admin => current in {UserLevel.Admin, UserLevel.GlobalModerator}
    case GlobalModerator => current == UserLevel.GlobalModerator
    case Unknown => false
  }

  /** The table is the rank order: a known requirement is met exactly by the
      levels ranked at least as high. */
  lemma UserLevelSatisfiesIff(current: UserLevel, required: UserLevel)
    ensures UserLevelSatisfies(current, required) <==> required != UserLevel.Unknown && Rank(current) >= Rank(required)
  {
  }

  lemma UserLevelSatisfiesOrder(a: UserLevel, b: UserLevel, c: UserLevel)
    ensures a != UserLevel.Unknown ==> UserLevelSatisfies(a, a)
    ensures UserLevelSatisfies(a, b) && UserLevelSatisfies(b, c) ==> UserLevelSatisfies(a, c)
  {
    UserLevelSatisfiesIff(a, a);
    UserLevelSatisfiesIff(a, b);
    UserLevelSatisfiesIff(b, c);
    UserLevelSatisfiesIff(a, c);
  }

  /** The level names `required_user_level` accepts. */
  function ParseLevelName(name: string): (r: Option<UserLevel>)
    ensures r.Some? ==> Rank(r.value) <= 4 && r.value != UserLevel.Unknown
  {
    if name == "normal" then Some(UserLevel.Normal)
    else if name == "subscriber" then Some(UserLevel.Subscriber)
    else if name == "vip" then Some(UserLevel.Vip)
    else if name == "moderator" then Some(UserLevel.Moderator)
    else if name == "broadcaster" then Some(UserLevel.Broadcaster)
    else None
  }

  // ---------------------------------------------------------------------------
  // Generic transforms and the custom-mapping loop
  // ---------------------------------------------------------------------------

  /** `apply_generic_transform`: length limits and a minimum user level; any
      other key changes nothing. */
  function GenericTransform(m: Msg, key: string, value: Json): (r: Result<Msg, MappingError>)
    ensures r.Ok? ==> r.value == m.(content := r.value.content)
    ensures r.Ok? && r.value.content != m.content ==>
      key == "max_message_length" && value.AsU64().Some? && |m.content| > value.AsU64().value
    ensures key == "max_message_length" && value.AsU64().Some? && |m.content| > value.AsU64().value ==>
      r.Ok? && |r.value.content| == value.AsU64().value + 3
      && r.value.content == m.content[..value.AsU64().value] + "..."
    ensures r.Err? <==>
      || (key == "min_message_length" && value.AsU64().Some? && |m.content| < value.AsU64().value)
      || (key == "required_user_level" && value.AsStr().Some? &&
          (ParseLevelName(value.AsStr().value).None? ||
           !UserLevelSatisfies(m.userLevel, ParseLevelName(value.AsStr().value).value)))
  {
    if key == "max_message_length" then
      match value.AsU64()
      case Some(max) =>
        if |m.content| > max then Ok(m.(content := m.content[..max] + "...")) else Ok(m)
      case None => Ok(m)
    else if key == "min_message_length" then
      match value.AsU64()
      case Some(min) => if |m.content| < min then Err(ValidationError("Message too short")) else Ok(m)
      case None => Ok(m)
    else if key == "required_user_level" then
      match value.AsStr()
      case Some(name) =>
        (match ParseLevelName(name)
         case None => Err(ValidationError("Invalid user level"))
         case Some(required) =>
           if !UserLevelSatisfies(m.userLevel, required) then Err(ValidationError("Insufficient user level")) else Ok(m))
      case None => Ok(m)
    else Ok(m)
  }

  datatype TransformKind = ContentTransforms | UserTransforms | EmoteTransforms

  function ApplyOne(kind: TransformKind, m: Msg, t: Json, re: RegexReplace): Result<Msg, MappingError> {
    match kind
    case ContentTransforms => ContentTransform(m, t, re)
    case UserTransforms => UserTransform(m, t)
    case EmoteTransforms => EmoteTransform(m, t)
  }

  /** A list of transforms applied in order, stopping at the first error. */
  function ApplyAll(kind: TransformKind, m: Msg, ts: seq<Json>, re: RegexReplace): Result<Msg, MappingError>
    decreases |ts|
  {
    if ts == [] then Ok(m)
    else match ApplyOne(kind, m, ts[0], re)
      case Err(e) => Err(e)
      case Ok(next) => ApplyAll(kind, next, ts[1..], re)
  }

  /** One entry of `custom_mappings`: a list of transforms under one of the
      three list keys, a generic transform under any other key. */
  function ApplyMapping(m: Msg, key: string, value: Json, re: RegexReplace): Result<Msg, MappingError> {
    if key == "content_transforms" then (if value.Array? then ApplyAll(ContentTransforms, m, value.items, re) else Ok(m))
    else if key == "user_transforms" then (if value.Array? then ApplyAll(UserTransforms, m, value.items, re) else Ok(m))
    else if key == "emote_transforms" then (if value.Array? then ApplyAll(EmoteTransforms, m, value.items, re) else Ok(m))
    else GenericTransform(m, key, value)
  }

  /** The custom mappings applied in the iteration order `order`. */
  function ApplyAlong(m: Msg, mappings: map<string, Json>, order: seq<string>, re: RegexReplace): Result<Msg, MappingError>
    requires forall i :: 0 <= i < |order| ==> order[i] in mappings
    decreases |order|
  {
    if order == [] then Ok(m)
    else match ApplyMapping(m, order[0], mappings[order[0]], re)
      case Err(e) => Err(e)
      case Ok(next) => ApplyAlong(next, mappings, order[1..], re)
  }

  /** The part of a message no custom transform touches. */
  predicate SameFrame(a: Msg, b: Msg) {
    a.platform == b.platform && a.channel == b.channel && a.badges == b.badges && a.timestamp == b.timestamp
    && a.userLevel == b.userLevel && a.messageType == b.messageType && a.rawData == b.rawData
  }

  lemma {:induction false} ApplyAllKeepsFrame(kind: TransformKind, m: Msg, ts: seq<Json>, re: RegexReplace)
    ensures ApplyAll(kind, m, ts, re).Ok? ==> SameFrame(m, ApplyAll(kind, m, ts, re).value)
    decreases |ts|
  {
    if ts != [] {
      var step := ApplyOne(kind, m, ts[0], re);
      if step.Ok? { ApplyAllKeepsFrame(kind, step.value, ts[1..], re); }
    }
  }

  /** Custom transforms never change the platform, channel, badges, timestamp,
      user level, message type or raw data of a message. */
  lemma {:induction false} ApplyAlongKeepsFrame(m: Msg, mappings: map<string, Json>, order: seq<string>, re: RegexReplace)
    requires forall i :: 0 <= i < |order| ==> order[i] in mappings
    ensures ApplyAlong(m, mappings, order, re).Ok? ==> SameFrame(m, ApplyAlong(m, mappings, order, re).value)
    decreases |order|
  {
    if order != [] {
      var step := ApplyMapping(m, order[0], mappings[order[0]], re);
      MappingKeepsFrame(m, order[0], mappings[order[0]], re);
      if step.Ok? { ApplyAlongKeepsFrame(step.value, mappings, order[1..], re); }
    }
  }

  /** One custom mapping keeps the frame of the message. */
  lemma MappingKeepsFrame(m: Msg, key: string, v: Json, re: RegexReplace)
    ensures ApplyMapping(m, key, v, re).Ok? ==> SameFrame(m, ApplyMapping(m, key, v, re).value)
  {
    if v.Array? {
      if key == "content_transforms" { ApplyAllKeepsFrame(ContentTransforms, m, v.items, re); }
      else if key == "user_transforms" { ApplyAllKeepsFrame(UserTransforms, m, v.items, re); }
      else if key == "emote_transforms" { ApplyAllKeepsFrame(EmoteTransforms, m, v.items, re); }
    }
  }

  lemma {:induction false} EnumerationExists(m: map<string, Json>)
    ensures exists order :: Enumerates(order, m)
    decreases |m|
  {
    if |m| == 0 {
      assert Enumerates([], m);
    } else {
      var k :| k in m;
      var rest := m - {k};
      assert |rest| < |m| by { assert rest.Keys == m.Keys - {k}; }
      EnumerationExists(rest);
      var o :| Enumerates(o, rest);
      assert Enumerates(o + [k], m);
    }
  }

  // ---------------------------------------------------------------------------
  // Pluggable transforms
  // ---------------------------------------------------------------------------

  /** The `MessageTransform` implementations of this file. */
  datatype Registered =
    | ContentFilter(blockedWords: seq<string>, caseSensitive: bool)
    | UserLevelPrefix(prefixes: map<UserLevel, string>)

  /** `UserLevelPrefix::new`: crown, wrench, gem and star for the four levels. */
  const DEFAULT_LEVEL_PREFIXES: map<UserLevel, string> := map[
    UserLevel.Broadcaster := "[\U{1F451}] ",
    UserLevel.Moderator := "[\U{1F527}] ",
    UserLevel.Vip := "[\U{1F48E}] ",
    UserLevel.Subscriber := "[\U{2B50}] "]

  /** Whether `word` blocks `content`, ignoring ASCII case unless told not to. */
  predicate Blocks(content: string, word: string, caseSensitive: bool) {
    if caseSensitive then Contains(content, word) else ContainsIgnoreCase(content, word)
  }

  /** `ContentFilter::transform`: refused iff some blocked word occurs. */
  function FilterVerdict(blocked: seq<string>, caseSensitive: bool, m: Msg): Result<Msg, MappingError> {
    if exists i | 0 <= i < |blocked| :: Blocks(m.content, blocked[i], caseSensitive) then
      Err(ValidationError("Message contains blocked word"))
    else Ok(m)
  }

  /** An empty blocked word refuses every message. */
  lemma EmptyWordBlocksAll(blocked: seq<string>, caseSensitive: bool, m: Msg)
    requires "" in blocked
    ensures FilterVerdict(blocked, caseSensitive, m).Err?
  {
    var i :| 0 <= i < |blocked| && blocked[i] == "";
    EmptyContained(m.content);
    EmptyContained(Lower(m.content));
    assert Lower("") == "";
    assert Blocks(m.content, blocked[i], caseSensitive);
  }

  /** `UserLevelPrefix::transform`: the level's prefix before the user name. */
  function PrefixByLevel(prefixes: map<UserLevel, string>, m: Msg): (r: Msg)
    ensures m.userLevel in prefixes ==> r == m.(username := prefixes[m.userLevel] + m.username)
    ensures m.userLevel !in prefixes ==> r == m
  {
    if m.userLevel in prefixes then m.(username := prefixes[m.userLevel] + m.username) else m
  }

  /** With the default prefixes only subscribers, VIPs, moderators and the
      broadcaster are marked. */
  lemma DefaultPrefixLevels(m: Msg)
    ensures PrefixByLevel(DEFAULT_LEVEL_PREFIXES, m) != m <==>
      m.userLevel in {UserLevel.Subscriber, UserLevel.Vip, UserLevel.Moderator, UserLevel.Broadcaster}
  {
    if m.userLevel in DEFAULT_LEVEL_PREFIXES {
      var p := DEFAULT_LEVEL_PREFIXES[m.userLevel];
      assert |p| > 0;
      assert |PrefixByLevel(DEFAULT_LEVEL_PREFIXES, m).username| > |m.username|;
    }
  }

  function RegisteredTransform(t: Registered, m: Msg): Result<Msg, MappingError> {
    match t
    case ContentFilter(blocked, cs) => FilterVerdict(blocked, cs, m)
    case UserLevelPrefix(prefixes) => Ok(PrefixByLevel(prefixes, m))
  }

  /** The registered transforms in registration order, stopping at the first
      error. */
  function ApplyRegistered(ts: seq<Registered>, m: Msg): Result<Msg, MappingError>
    decreases |ts|
  {
    if ts == [] then Ok(m)
    else match RegisteredTransform(ts[0], m)
      case Err(e) => Err(e)
      case Ok(next) => ApplyRegistered(ts[1..], next)
  }

  /** The content filter's loop over its blocked words. */
  method ContentFilterTransform(blocked: seq<string>, caseSensitive: bool, m: Msg) returns (r: Result<Msg, MappingError>)
    ensures r.Err? <==> exists i | 0 <= i < |blocked| :: Blocks(m.content, blocked[i], caseSensitive)
    ensures r.Ok? ==> r.value == m
    ensures r == FilterVerdict(blocked, caseSensitive, m)
  {
    var content := if caseSensitive then m.content else Lower(m.content);
    for i := 0 to |blocked|
      invariant forall j | 0 <= j < i :: !Blocks(m.content, blocked[j], caseSensitive)
    {
      var word := if caseSensitive then blocked[i] else Lower(blocked[i]);
      if Contains(content, word) {
        assert Blocks(m.content, blocked[i], caseSensitive);
        return Err(ValidationError("Message contains blocked word"));
      }
    }
    return Ok(m);
  }

  /** `MessageTransformer`: the registered pluggable transforms; the compiled
      regex cache only saves work and is not modelled. */
  class MessageTransformer {
    var transformers: seq<Registered>

    constructor ()
      ensures transformers == []
    {
      transformers := [];
    }

    /** `register_transformer`: appended after the ones already there. */
    method RegisterTransformer(t: Registered)
      modifies this
      ensures transformers == old(transformers) + [t]
    {
      transformers := transformers + [t];
    }

    /** `apply_registered_transformers`. */
    method ApplyRegisteredTransformers(m: Msg) returns (r: Result<Msg, MappingError>)
      ensures r == ApplyRegistered(transformers, m)
    {
      var message := m;
      for i := 0 to |transformers|
        invariant ApplyRegistered(transformers, m) == ApplyRegistered(transformers[i..], message)
      {
        var step: Result<Msg, MappingError>;
        match transformers[i] {
          case ContentFilter(blocked, cs) =>
            step := ContentFilterTransform(blocked, cs, message);
          case UserLevelPrefix(prefixes) =>
            step := Ok(PrefixByLevel(prefixes, message));
        }
        assert transformers[i..][0] == transformers[i];
        if step.Err? {
          return Err(step.error);
        }
        assert transformers[i..][1..] == transformers[i + 1..];
        message := step.value;
      }
      return Ok(message);
    }

    /** The inner loops of `apply_custom_transformations`: one list of
        transforms of a kind, in order, stopping at the first error. */
    method ApplyTransforms(kind: TransformKind, m: Msg, ts: seq<Json>, re: RegexReplace) returns (r: Result<Msg, MappingError>)
      ensures r == ApplyAll(kind, m, ts, re)
    {
      var message := m;
      for i := 0 to |ts|
        invariant ApplyAll(kind, m, ts, re) == ApplyAll(kind, message, ts[i..], re)
      {
        var step := ApplyOne(kind, message, ts[i], re);
        if step.Err? {
          return Err(step.error);
        }
        assert ts[i..][1..] == ts[i + 1..];
        message := step.value;
      }
      return Ok(message);
    }

    /** `apply_custom_transformations`: every entry of the map, in the map's
        own (unspecified) iteration order, stopping at the first error. */
    method ApplyCustomTransformations(m: Msg, mappings: map<string, Json>, re: RegexReplace)
      returns (r: Result<Msg, MappingError>)
      ensures exists order :: Enumerates(order, mappings) && r == ApplyAlong(m, mappings, order, re)
    {
      EnumerationExists(mappings);
      var order :| Enumerates(order, mappings);
      var message := m;
      for i := 0 to |order|
        invariant ApplyAlong(m, mappings, order, re) == ApplyAlong(message, mappings, order[i..], re)
      {
        var key := order[i];
        var value := mappings[key];
        var step: Result<Msg, MappingError>;
        if key == "content_transforms" && value.Array? {
          step := ApplyTransforms(ContentTransforms, message, value.items, re);
        } else if key == "user_transforms" && value.Array? {
          step := ApplyTransforms(UserTransforms, message, value.items, re);
        } else if key == "emote_transforms" && value.Array? {
          step := ApplyTransforms(EmoteTransforms, message, value.items, re);
        } else {
          step := ApplyMapping(message, key, value, re);
        }
        if step.Err? {
          return Err(step.error);
        }
        assert order[i..][1..] == order[i + 1..];
        message := step.value;
      }
      return Ok(message);
    }

    /** `transform`: the optional normalisations, then the system filter, then
        the custom mappings of `config`. */
    method Transform(m: Msg, config: MappingConfig, re: RegexReplace) returns (r: Result<Msg, MappingError>)
      ensures config.filterSystemMessages && IsSystemMessage(Prepared(m, config)) ==>
        r == Err(ValidationError("System message filtered out"))
      ensures !(config.filterSystemMessages && IsSystemMessage(Prepared(m, config))) ==>
        exists order :: Enumerates(order, config.customMappings)
          && r == ApplyAlong(Prepared(m, config), config.customMappings, order, re)
      ensures r.Ok? ==> SameFrame(Prepared(m, config), r.value)
    {
      var result := m;
      if config.normalizeUsernames {
        result := NormalizeUsername(result);
      }
      if config.normalizeChannels {
        result := NormalizeChannel(result);
      }
      if config.filterSystemMessages && IsSystemMessage(result) {
        return Err(ValidationError("System message filtered out"));
      }
      r := ApplyCustomTransformations(result, config.customMappings, re);
      ghost var order :| Enumerates(order, config.customMappings) && r == ApplyAlong(result, config.customMappings, order, re);
      ApplyAlongKeepsFrame(result, config.customMappings, order, re);
    }
  }
}
