/** Acceptance of the forecast generator's reply (services/geminiService.ts): the closed list of
    icon names, stripping of a Markdown code fence, the schema check of the parsed value, the
    normalised record, and the classification of every failure into a credential error or a
    plain one. The remote call itself is an input (`Reply`), and so is `JSON.parse`
    (`parse`), which either yields a JSON value or throws a SyntaxError with the engine's
    message. */
module Gemini {
  import opened Wrappers
  import opened Text
  import opened Types
  import DayTime

  // ---------------------------------------------------------------- inputs and outputs

  /** A value `JSON.parse` can produce; numbers are finite. */
  datatype Json =
    | JNull
    | JBool(b: bool)
    | JNumber(n: real)
    | JString(s: string)
    | JArray(items: seq<Json>)
    | JObject(members: map<string, Json>)

  /** The outcome of `JSON.parse` on a text. */
  datatype Parsed = Value(json: Json) | SyntaxError(message: string)

  /** Something thrown inside the request block. The block's own failures are `Error`s, and only
      a parse failure is a `SyntaxError`; the remote call may reject with any value, and
      `NonError` is one that is not an `Error` and so has no message. */
  datatype Thrown = Thrown(isSyntaxError: bool, message: string) | NonError

  /** What the remote text-completion call gave back: a text, a response without text, or the
      error the call threw. */
  datatype Reply = Text(text: string) | NoText | CallFailed(thrown: Thrown)

  /** The error `predictWeather` rejects with (types.ts `ApiKeyError`). */
  datatype ServiceError = ServiceError(isApiKeyError: bool, message: string)

  const NotConfiguredMessage := "Gemini API key is not configured. Please set the API_KEY environment variable."
  // The three messages below are written in short pieces: the solver reasons about the characters
  // of a short literal but not of a long one.
  const InvalidFormatMessage := "AI provided an " + "invalid or " + "incomplete weather " + "data format."
  const InvalidKeyMessage := "Invalid API Key. Please check your Gemini API key."
  const ApiKeyMarker := "API key not valid"
  const MalformedPrefix := "AI returned malformed data. Could not parse weather information. Raw AI output: "
  const GenericPrefix := "Failed to get weather prediction from AI. "
  const UnknownErrorText := "Unknown AI error"
  /** The TypeError messages of the V8 engine for reading a member of null or undefined. */
  const NullReadMessage := "Cannot read " + "properties of " + "null (reading " + "'temperature')"
  const NoTextMessage := "Cannot read " + "properties of " + "undefined " + "(reading 'trim')"
  const LegacyIconCrashMessage := "Cannot read properties of undefined (reading 'split')"

  /** The icon value the service would rewrite by time of day. */
  const LegacyPartlyCloudy := "partly-cloudy"

  /** `validIconTypes`, in source order. */
  const ValidIconTypes: seq<string> := [
    "sunny", "cloudy", "partly-cloudy-day", "partly-cloudy-night", "rain", "light-rain", "heavy-rain",
    "snow", "light-snow", "heavy-snow", "thunderstorm", "fog", "windy", "mist", "drizzle", "unknown"
  ]

  /** The list holds exactly the names of the sixteen icons, each once. */
  lemma ValidIconTypesExact()
    ensures |ValidIconTypes| == 16
    ensures forall i, j :: 0 <= i < j < |ValidIconTypes| ==> ValidIconTypes[i] != ValidIconTypes[j]
    ensures forall icon :: IconName(icon) in ValidIconTypes
    ensures forall name :: name in ValidIconTypes <==> IconFromName(name).Some?
  {
    ValidIconTypesDistinct();
    EveryIconListed();
    ListedNamesAreIcons();
  }

  lemma ValidIconTypesDistinct()
    ensures |ValidIconTypes| == 16
    ensures forall i, j :: 0 <= i < j < |ValidIconTypes| ==> ValidIconTypes[i] != ValidIconTypes[j]
  {
  }

  /** Where each icon's name sits in the list. */
  function IconIndex(icon: IconType): (k: nat)
    ensures k < |ValidIconTypes| && ValidIconTypes[k] == IconName(icon)
  {
    match icon
    case Sunny => 0
    case Cloudy => 1
    case PartlyCloudyDay => 2
    case PartlyCloudyNight => 3
    case Rain => 4
    case LightRain => 5
    case HeavyRain => 6
    case Snow => 7
    case LightSnow => 8
    case HeavySnow => 9
    case Thunderstorm => 10
    case Fog => 11
    case Windy => 12
    case Mist => 13
    case Drizzle => 14
    case Unknown => 15
  }

  lemma EveryIconListed()
    ensures forall icon :: IconName(icon) in ValidIconTypes
  {
    forall icon ensures IconName(icon) in ValidIconTypes {
      var k := IconIndex(icon);
    }
  }

  /** A name is listed exactly when it names an icon. */
  lemma ListedNamesAreIcons()
    ensures forall name :: name in ValidIconTypes <==> IconFromName(name).Some?
  {
    EveryIconListed();
  }

  /** The icon a listed name stands for. */
  function ListedIcon(name: string): (icon: IconType)
    requires name in ValidIconTypes
    ensures IconName(icon) == name
  {
    ListedNamesAreIcons();
    IconFromName(name).value
  }

  // ---------------------------------------------------------------- code fence

  const Fence := "```"

  predicate WordChars(s: string) {
    forall i :: 0 <= i < |s| ==> IsWordChar(s[i])
  }

  /** The longest run of `\w` characters at the start: what follows it is not one. */
  function WordPrefix(s: string): (w: string)
    ensures |w| <= |s| && WordChars(w)
    ensures |w| == |s| || !IsWordChar(s[|w|])
  {
    if s != [] && IsWordChar(s[0]) then [s[0]] + WordPrefix(s[1..]) else []
  }

  /** The run `WordPrefix` reads is a prefix of its input. */
  lemma {:induction false} WordPrefixIsPrefix(s: string)
    ensures WordPrefix(s) == s[..|WordPrefix(s)|]
  {
    if s != [] && IsWordChar(s[0]) {
      WordPrefixIsPrefix(s[1..]);
    }
  }

  /** Opens and closes with a fence, the two fences not overlapping. */
  predicate Fenced(t: string) {
    |t| >= 6 && t[..3] == Fence && t[|t| - 3..] == Fence
  }

  /** What the parts of /^```(\w*)?\s*\n?(.*?)\n?\s*```$/s match: the language tag, the white
      space after it, the body (the second capture group) and the white space before the closing
      fence. */
  datatype FenceGroups = FenceGroups(tag: string, ws1: string, body: string, ws2: string) {
    function Inner(): string {
      tag + (ws1 + (body + ws2))
    }
  }

  /** `t` is the fence `g` describes, with the greedy and lazy parts of the expression resolved:
      the tag takes every word character, the first white space every space, so the body starts
      and ends with a non-space character (or is empty, and then the first white space holds all
      of it). */
  predicate FenceShape(t: string, g: FenceGroups) {
    t == Fence + g.Inner() + Fence && GroupsShape(g)
  }

  /** The groups as the greedy and lazy parts of the expression leave them. */
  predicate GroupsShape(g: FenceGroups) {
    && WordChars(g.tag) && AllSpace(g.ws1) && AllSpace(g.ws2) && Trimmed(g.body)
    && (g.ws1 == [] && g.body != [] ==> !IsWordChar(g.body[0]))
    && (g.body == [] ==> g.ws2 == [])
  }

  lemma FencedInner(t: string)
    requires Fenced(t)
    ensures t == Fence + t[3..|t| - 3] + Fence
  {
  }

  /** The groups a match of the inner part of a fence yields. */
  function InnerGroups(inner: string): (g: FenceGroups)
    ensures g.Inner() == inner
  {
    var tag := WordPrefix(inner);
    var afterTag := inner[|tag|..];
    var rest := TrimStart(afterTag);
    var body := TrimEnd(rest);
    var ws1 := afterTag[..|afterTag| - |rest|];
    var ws2 := rest[|body|..];
    WordPrefixIsPrefix(inner);
    TrimStartSuffix(afterTag);
    TrimEndPrefix(rest);
    SliceConcat(rest, |body|);
    SliceConcat(afterTag, |afterTag| - |rest|);
    SliceConcat(inner, |tag|);
    FenceGroups(tag, ws1, body, ws2)
  }

  /** The capture groups of a match of the fence expression against `t`, or `None` when it does
      not match: it matches exactly when `t` opens and closes with a fence. */
  function FenceMatch(t: string): (m: Option<FenceGroups>)
    ensures m.None? <==> !Fenced(t)
    ensures m.Some? ==> FenceShape(t, m.value)
  {
    if Fenced(t) then
      FencedInner(t);
      InnerGroupsShape(t[3..|t| - 3]);
      Some(InnerGroups(t[3..|t| - 3]))
    else None
  }

  /** The groups read from any inner part have the shape the expression gives them. */
  lemma InnerGroupsShape(inner: string)
    ensures GroupsShape(InnerGroups(inner))
  {
    InnerGroupsSpace(inner);
    InnerGroupsBody(inner);
  }

  lemma InnerGroupsSpace(inner: string)
    ensures AllSpace(InnerGroups(inner).ws1) && AllSpace(InnerGroups(inner).ws2)
  {
    var afterTag := inner[|WordPrefix(inner)|..];
    TrimStartSuffix(afterTag);
    TrimEndPrefix(TrimStart(afterTag));
  }

  lemma InnerGroupsBody(inner: string)
    ensures var g := InnerGroups(inner);
      && Trimmed(g.body)
      && (g.ws1 == [] && g.body != [] ==> !IsWordChar(g.body[0]))
      && (g.body == [] ==> g.ws2 == [])
  {
  }

  lemma FenceSlices(inner: string)
    ensures Fenced(Fence + inner + Fence)
    ensures var t := Fence + inner + Fence; t[3..|t| - 3] == inner
  {
  }

  lemma {:induction false} WordPrefixOf(w: string, rest: string)
    requires WordChars(w)
    requires rest == [] || !IsWordChar(rest[0])
    ensures WordPrefix(w + rest) == w
  {
    if w != [] {
      assert (w + rest)[1..] == w[1..] + rest;
      WordPrefixOf(w[1..], rest);
    } else {
      assert w + rest == rest;
    }
  }

  /** The groups of a fence shape are the ones the expression yields on its inner part. */
  lemma InnerGroupsOf(g: FenceGroups)
    requires GroupsShape(g)
    ensures InnerGroups(g.Inner()) == g
  {
    var tail := g.body + g.ws2;
    var afterTag := g.ws1 + tail;
    assert g.Inner() == g.tag + afterTag;
    WordPrefixOf(g.tag, afterTag);
    assert g.Inner()[|g.tag|..] == afterTag;
    if g.body == [] {
      assert tail == [];
    }
    TrimStartPadded(g.ws1, tail);
    TrimEndPadded(g.body, g.ws2);
  }

  /** Matching a fence of a given shape yields exactly its groups: together with the contract of
      `FenceMatch`, a match and a shape are the same thing. */
  lemma FenceMatchOf(t: string, g: FenceGroups)
    requires FenceShape(t, g)
    ensures FenceMatch(t) == Some(g)
  {
    FenceSlices(g.Inner());
    InnerGroupsOf(g);
  }

  /** A fenced text is trimmed: it starts and ends with a backtick. */
  lemma FenceShapeTrimmed(t: string, g: FenceGroups)
    requires FenceShape(t, g)
    ensures Trimmed(t)
  {
    FenceSlices(g.Inner());
    assert t[0] == t[..3][0] && t[|t| - 1] == t[|t| - 3..][2];
  }

  /** The text `JSON.parse` is given: the trimmed reply, or the trimmed body when the fence
      expression matches with a non-empty body. */
  function StripFence(text: string): (r: string)
    ensures Trimmed(r) && |r| <= |text|
    ensures !Fenced(Trim(text)) ==> r == Trim(text)
  {
    Unfence(Trim(text))
  }

  /** The fence step on an already trimmed reply. */
  function Unfence(t: string): (r: string)
    ensures !Fenced(t) ==> r == t
    ensures Trimmed(t) ==> Trimmed(r)
    ensures |r| <= |t|
  {
    match FenceMatch(t)
    case Some(g) => if g.body != "" then Trim(g.body) else t
    case None => t
  }

  lemma UnfenceBody(t: string, g: FenceGroups)
    requires FenceShape(t, g) && g.body != []
    ensures Unfence(t) == g.body
  {
    FenceMatchOf(t, g);
    TrimTrimmed(g.body);
  }

  /** A fenced body, with or without a language tag and surrounded by any white space, comes back
      exactly. */
  lemma StripFenceRoundTrip(text: string, pre: string, t: string, post: string, g: FenceGroups)
    requires text == pre + t + post && AllSpace(pre) && AllSpace(post)
    requires FenceShape(t, g) && g.body != []
    ensures StripFence(text) == g.body
  {
    FenceShapeTrimmed(t, g);
    TrimPadded(pre, t, post);
    UnfenceBody(t, g);
  }

  /** Text that, once trimmed, does not open or does not close with a fence is only trimmed. */
  lemma StripFenceUnfenced(text: string)
    requires !Fenced(Trim(text))
    ensures StripFence(text) == Trim(text)
  {
  }

  /** A fence with nothing but a tag and white space inside, as in "```json```", is left as it is,
      fences included: its body group is empty. */
  lemma StripFenceEmptyBody(text: string, g: FenceGroups)
    requires FenceShape(text, g) && g.body == []
    ensures StripFence(text) == text
  {
    FenceShapeTrimmed(text, g);
    TrimTrimmed(text);
    FenceMatchOf(text, g);
  }

  // ---------------------------------------------------------------- schema

  /** `typeof fields[key] === 'number'`; a missing key is `undefined`. */
  predicate NumberAt(fields: map<string, Json>, key: string) {
    key in fields && fields[key].JNumber?
  }

  /** `typeof fields[key] === 'string'`. */
  predicate StringAt(fields: map<string, Json>, key: string) {
    key in fields && fields[key].JString?
  }

  /** The negation of the rejecting condition: nine numbers, five strings, an icon from the list
      and a `city` that is null or a string. A missing `city` is undefined, which is neither. */
  predicate PassesSchema(fields: map<string, Json>) {
    && NumberAt(fields, "temperature")
    && NumberAt(fields, "feelsLike")
    && NumberAt(fields, "humidity")
    && NumberAt(fields, "windSpeed")
    && NumberAt(fields, "pressure")
    && NumberAt(fields, "visibility")
    && NumberAt(fields, "uvIndex")
    && NumberAt(fields, "precipitationChance")
    && StringAt(fields, "sunrise")
    && StringAt(fields, "sunset")
    && NumberAt(fields, "aqi")
    && StringAt(fields, "aqiDescription")
    && StringAt(fields, "description")
    && StringAt(fields, "icon")
    && fields["icon"].s in ValidIconTypes
    && "city" in fields && (fields["city"].JNull? || fields["city"].JString?)
  }

  const NumberFields: seq<string> := [
    "temperature", "feelsLike", "humidity", "windSpeed", "pressure", "visibility", "uvIndex",
    "precipitationChance", "aqi"
  ]
  const StringFields: seq<string> := ["sunrise", "sunset", "aqiDescription", "description", "icon"]

  /** The schema as a table of field kinds. */
  predicate Schema(fields: map<string, Json>) {
    && (forall k :: k in NumberFields ==> NumberAt(fields, k))
    && (forall k :: k in StringFields ==> StringAt(fields, k))
    && StringAt(fields, "icon") && fields["icon"].s in ValidIconTypes
    && "city" in fields && (fields["city"] == JNull || fields["city"].JString?)
  }

  /** The condition the source writes out field by field is the table of field kinds. */
  lemma PassesSchemaIsSchema(fields: map<string, Json>)
    ensures PassesSchema(fields) <==> Schema(fields)
  {
    if Schema(fields) {
      assert NumberAt(fields, NumberFields[0]) && NumberAt(fields, NumberFields[1]);
      assert NumberAt(fields, NumberFields[2]) && NumberAt(fields, NumberFields[3]);
      assert NumberAt(fields, NumberFields[4]) && NumberAt(fields, NumberFields[5]);
      assert NumberAt(fields, NumberFields[6]) && NumberAt(fields, NumberFields[7]);
      assert NumberAt(fields, NumberFields[8]);
      assert StringAt(fields, StringFields[0]) && StringAt(fields, StringFields[1]);
      assert StringAt(fields, StringFields[2]) && StringAt(fields, StringFields[3]);
      assert StringAt(fields, StringFields[4]);
    }
  }

  /** What the schema check makes of a parsed value. Reading a member of `null` throws. Any other
      non-object reads `undefined` for every field and fails. */
  datatype Check = Accepted(fields: map<string, Json>) | Rejected | ReadFromNull

  function Validate(v: Json): (c: Check)
    ensures c.Accepted? <==> v.JObject? && PassesSchema(v.members)
    ensures c.Accepted? ==> c.fields == v.members
    ensures c.ReadFromNull? <==> v == JNull
  {
    match v
    case JNull => ReadFromNull
    case JObject(fields) => if PassesSchema(fields) then Accepted(fields) else Rejected
    case _ => Rejected
  }

  /** An object without a `city` key is rejected, whatever else it holds. */
  lemma MissingCityRejected(fields: map<string, Json>)
    requires "city" !in fields
    ensures Validate(JObject(fields)) == Rejected
  {
  }

  /** Keys outside the schema play no part in acceptance or in the record. */
  lemma ExtraKeysIgnored(fields: map<string, Json>, key: string, v: Json, icon: IconType, stamp: string)
    requires key !in NumberFields && key !in StringFields && key != "city"
    requires PassesSchema(fields)
    ensures PassesSchema(fields[key := v])
    ensures Normalize(fields[key := v], icon, stamp) == Normalize(fields, icon, stamp)
  {
  }

  // ---------------------------------------------------------------- normalisation

  /** `Math.round`: the nearest integer, a tie going up. */
  function Round(x: real): (r: int)
    ensures r as real - 0.5 <= x < r as real + 0.5
  {
    (x + 0.5).Floor
  }

  /** There is only one integer that close, so `Round` is the nearest integer and keeps integers. */
  lemma RoundUnique(x: real, k: int)
    requires k as real - 0.5 <= x < k as real + 0.5
    ensures Round(x) == k
  {
  }

  /** `city || undefined`: null and the empty string become absent. */
  function CityOf(v: Json): (city: Option<string>)
    ensures city.Some? <==> v.JString? && v.s != ""
    ensures city.Some? ==> city.value == v.s
  {
    if v.JString? && v.s != "" then Some(v.s) else None
  }

  /** `x` rounds to `k` under `Math.round`. */
  predicate RoundsTo(x: real, k: int) {
    k as real - 0.5 <= x < k as real + 0.5
  }

  /** The accepted record: each number is the nearest integer to the parsed one, a tie going up;
      the texts are copied unchanged; `city` is kept only when it is a non-empty string; the icon
      and time stamp are the given ones. */
  function Normalize(fields: map<string, Json>, icon: IconType, stamp: string): (w: WeatherData)
    requires PassesSchema(fields)
    ensures && RoundsTo(fields["temperature"].n, w.temperature)
            && RoundsTo(fields["feelsLike"].n, w.feelsLike)
            && RoundsTo(fields["humidity"].n, w.humidity)
            && RoundsTo(fields["windSpeed"].n, w.windSpeed)
            && RoundsTo(fields["pressure"].n, w.pressure)
            && RoundsTo(fields["visibility"].n, w.visibility)
            && RoundsTo(fields["uvIndex"].n, w.uvIndex)
            && RoundsTo(fields["precipitationChance"].n, w.precipitationChance)
            && RoundsTo(fields["aqi"].n, w.aqi)
    ensures && w.sunrise == fields["sunrise"].s && w.sunset == fields["sunset"].s
            && w.description == fields["description"].s
            && w.aqiDescription == fields["aqiDescription"].s
            && w.icon == icon && w.lastUpdated == stamp
    ensures (w.city.Some? <==> fields["city"].JString? && fields["city"].s != "")
            && (w.city.Some? ==> w.city.value == fields["city"].s)
  {
    WeatherData(
      temperature := Round(fields["temperature"].n),
      humidity := Round(fields["humidity"].n),
      windSpeed := Round(fields["windSpeed"].n),
      description := fields["description"].s,
      icon := icon,
      city := CityOf(fields["city"]),
      feelsLike := Round(fields["feelsLike"].n),
      pressure := Round(fields["pressure"].n),
      visibility := Round(fields["visibility"].n),
      uvIndex := Round(fields["uvIndex"].n),
      precipitationChance := Round(fields["precipitationChance"].n),
      sunrise := fields["sunrise"].s,
      sunset := fields["sunset"].s,
      aqi := Round(fields["aqi"].n),
      aqiDescription := fields["aqiDescription"].s,
      lastUpdated := stamp)
  }
  /** The icon of the record: the legacy "partly-cloudy" would be settled by the service's own
      `isDayTime` (which may throw), every listed name is its own icon. */
  function FinalIcon(name: string, sunrise: string, sunset: string, now: int): (r: Result<IconType, Thrown>)
    requires name == LegacyPartlyCloudy || name in ValidIconTypes
    ensures name in ValidIconTypes ==> r.Ok? && IconName(r.value) == name
  {
    if name == LegacyPartlyCloudy then
      match DayTime.ServiceIsDayTime(sunrise, sunset, now)
      case None => Err(Thrown(false, LegacyIconCrashMessage))
      case Some(day) => Ok(if day then PartlyCloudyDay else PartlyCloudyNight)
    else
      Ok(ListedIcon(name))
  }

  /** The legacy rewrite is dead code: the schema rejects "partly-cloudy" before it is reached. */
  lemma LegacyRewriteUnreachable(fields: map<string, Json>)
    requires PassesSchema(fields)
    ensures fields["icon"].s != LegacyPartlyCloudy
  {
    ListedNamesAreIcons();
  }

  // ---------------------------------------------------------------- predictWeather

  /** The body of the request block: what it returns, or what it throws. */
  function Attempt(reply: Reply, parse: string -> Parsed, now: int, stamp: string): (r: Result<WeatherData, Thrown>)
    ensures r.Err? && r.error.Thrown? && r.error.isSyntaxError ==>
              reply.CallFailed? || (reply.Text? && parse(StripFence(reply.text)).SyntaxError?)
    ensures r.Err? && r.error.NonError? ==> reply.CallFailed?
    ensures reply.CallFailed? ==> r == Err(reply.thrown)
  {
    match reply
    case CallFailed(thrown) => Err(thrown)
    case NoText => Err(Thrown(false, NoTextMessage))
    case Text(text) =>
      match parse(StripFence(text))
      case SyntaxError(message) => Err(Thrown(true, message))
      case Value(v) =>
        match Validate(v)
        case ReadFromNull => Err(Thrown(false, NullReadMessage))
        case Rejected => Err(Thrown(false, InvalidFormatMessage))
        case Accepted(fields) =>
          match FinalIcon(fields["icon"].s, fields["sunrise"].s, fields["sunset"].s, now)
          case Err(thrown) => Err(thrown)
          case Ok(icon) => Ok(Normalize(fields, icon, stamp))
  }

  /** The text a thrown value contributes: its message, or a fixed text for a non-`Error`. */
  function ErrorText(thrown: Thrown): string {
    if thrown.Thrown? then thrown.message else UnknownErrorText
  }

  /** The handler of the request block: an `Error` whose message names an invalid key makes a
      credential error; a SyntaxError with a non-empty reply quotes the first 100 characters of
      the raw reply; everything else is wrapped with the generic prefix. */
  function Classify(thrown: Thrown, reply: Reply): (e: ServiceError)
    ensures e.isApiKeyError <==> thrown.Thrown? && Contains(thrown.message, ApiKeyMarker)
    ensures e.isApiKeyError ==> e.message == InvalidKeyMessage
  {
    if thrown.Thrown? && Contains(thrown.message, ApiKeyMarker) then ServiceError(true, InvalidKeyMessage)
    else if thrown.Thrown? && thrown.isSyntaxError && reply.Text? && reply.text != "" then
      ServiceError(false, MalformedPrefix + Prefix(reply.text, 100) + "...")
    else ServiceError(false, GenericPrefix + ErrorText(thrown))
  }

  /** A SyntaxError on a non-empty reply quotes the reply's first 100 characters, or all of a
      shorter reply, after the malformed-data prefix. */
  lemma SyntaxErrorQuotesReply(thrown: Thrown, reply: Reply)
    requires thrown.Thrown? && !Contains(thrown.message, ApiKeyMarker)
    requires thrown.isSyntaxError && reply.Text? && reply.text != ""
    ensures var e := Classify(thrown, reply);
            var quote := Prefix(reply.text, 100);
            !e.isApiKeyError && e.message == MalformedPrefix + quote + "..." &&
            |quote| == (if |reply.text| < 100 then |reply.text| else 100) &&
            quote == reply.text[..|quote|]
  {
  }

  /** Every other failure keeps its own message, or the unknown-error text when the thrown value
      is not an `Error`, after the generic prefix. */
  lemma OtherFailuresWrapped(thrown: Thrown, reply: Reply)
    requires !(thrown.Thrown? && Contains(thrown.message, ApiKeyMarker))
    requires !(thrown.Thrown? && thrown.isSyntaxError && reply.Text? && reply.text != "")
    ensures var e := Classify(thrown, reply);
            var text := if thrown.Thrown? then thrown.message else UnknownErrorText;
            !e.isApiKeyError && |e.message| == |GenericPrefix| + |text| &&
            e.message[..|GenericPrefix|] == GenericPrefix && e.message[|GenericPrefix|..] == text
  {
    var e := Classify(thrown, reply);
    assert e.message == GenericPrefix + ErrorText(thrown);
  }

  /** A text without the letter 'k' never names an invalid key. */
  lemma NoKeyMarker(s: string)
    requires 'k' !in s
    ensures !Contains(s, ApiKeyMarker)
  {
    forall i | 0 <= i <= |s| - |ApiKeyMarker|
      ensures !OccursAt(s, ApiKeyMarker, i)
    {
      assert s[i + 4] in s && ApiKeyMarker[4] == 'k';
    }
  }

  lemma InvalidFormatNamesNoKey()
    ensures !Contains(InvalidFormatMessage, ApiKeyMarker)
  {
    assert 'k' !in InvalidFormatMessage;
    NoKeyMarker(InvalidFormatMessage);
  }

  lemma NullReadNamesNoKey()
    ensures !Contains(NullReadMessage, ApiKeyMarker)
  {
    assert 'k' !in NullReadMessage;
    NoKeyMarker(NullReadMessage);
  }

  lemma NoTextNamesNoKey()
    ensures !Contains(NoTextMessage, ApiKeyMarker)
  {
    assert 'k' !in NoTextMessage;
    NoKeyMarker(NoTextMessage);
  }

  /** The fields of a reply the request block accepts: the call returned a text, its
      fence-stripped form parses, and the value is an object that passes the schema. */
  function AcceptedFields(reply: Reply, parse: string -> Parsed): (f: Option<map<string, Json>>)
    ensures f.Some? <==> reply.Text? && parse(StripFence(reply.text)).Value?
                         && parse(StripFence(reply.text)).json.JObject?
                         && PassesSchema(parse(StripFence(reply.text)).json.members)
    ensures f.Some? ==> f.value == parse(StripFence(reply.text)).json.members
  {
    if reply.Text? then
      match parse(StripFence(reply.text))
      case Value(v) => if Validate(v).Accepted? then Some(Validate(v).fields) else None
      case SyntaxError(_) => None
    else None
  }

  /** The request block returns a record exactly for the accepted fields, and the record is
      those fields normalised with their own icon. */
  lemma AttemptOutcome(reply: Reply, parse: string -> Parsed, now: int, stamp: string)
    ensures Attempt(reply, parse, now, stamp).Ok? <==> AcceptedFields(reply, parse).Some?
    ensures AcceptedFields(reply, parse).Some? ==>
              var fields := AcceptedFields(reply, parse).value;
              PassesSchema(fields)
              && Attempt(reply, parse, now, stamp).value
                 == Normalize(fields, ListedIcon(fields["icon"].s), stamp)
  {
    if AcceptedFields(reply, parse).Some? {
      LegacyRewriteUnreachable(AcceptedFields(reply, parse).value);
    }
  }

  /** `predictWeather`. Without a configured client it rejects with a credential error before
      any request; otherwise it accepts exactly the replies whose fields are accepted, returns
      those fields normalised, and reports every failure through `Classify`. */
  function PredictWeather(aiConfigured: bool, reply: Reply, parse: string -> Parsed, now: int,
                          stamp: string): (r: Result<WeatherData, ServiceError>)
    ensures !aiConfigured ==> r == Err(ServiceError(true, NotConfiguredMessage))
    ensures r.Ok? <==> aiConfigured && AcceptedFields(reply, parse).Some?
    ensures r.Ok? ==>
              var fields := AcceptedFields(reply, parse).value;
              r.value == Normalize(fields, ListedIcon(fields["icon"].s), stamp)
    ensures aiConfigured && r.Err? ==>
              Attempt(reply, parse, now, stamp).Err?
              && r.error == Classify(Attempt(reply, parse, now, stamp).error, reply)
  {
    if !aiConfigured then Err(ServiceError(true, NotConfiguredMessage))
    else
      var attempt := Attempt(reply, parse, now, stamp);
      AttemptOutcome(reply, parse, now, stamp);
      if attempt.Ok? then Ok(attempt.value) else Err(Classify(attempt.error, reply))
  }

  // ---------------------------------------------------------------- how each failure is reported

  /** A reply that does not parse as JSON is reported with its first 100 characters quoted. */
  lemma MalformedReplyQuoted(reply: Reply, parse: string -> Parsed, now: int, stamp: string)
    requires reply.Text? && reply.text != ""
    requires parse(StripFence(reply.text)).SyntaxError?
    requires !Contains(parse(StripFence(reply.text)).message, ApiKeyMarker)
    ensures PredictWeather(true, reply, parse, now, stamp)
              == Err(ServiceError(false, MalformedPrefix + Prefix(reply.text, 100) + "..."))
  {
  }

  /** A call the server refuses for an invalid key becomes the credential error, whatever the
      server's own wording around the marker. */
  lemma InvalidKeyReported(reply: Reply, parse: string -> Parsed, now: int, stamp: string)
    requires reply.CallFailed? && reply.thrown.Thrown? && Contains(reply.thrown.message, ApiKeyMarker)
    ensures PredictWeather(true, reply, parse, now, stamp) == Err(ServiceError(true, InvalidKeyMessage))
  {
  }

  /** Any other failed call keeps its message after the generic prefix, a SyntaxError included
      (no reply text exists to quote); a rejection with a non-`Error` gets the unknown-error
      text. */
  lemma CallFailureWrapped(reply: Reply, parse: string -> Parsed, now: int, stamp: string)
    requires reply.CallFailed? && !(reply.thrown.Thrown? && Contains(reply.thrown.message, ApiKeyMarker))
    ensures PredictWeather(true, reply, parse, now, stamp)
              == Err(ServiceError(false, GenericPrefix + ErrorText(reply.thrown)))
    ensures reply.thrown.NonError? ==>
              PredictWeather(true, reply, parse, now, stamp)
                == Err(ServiceError(false, GenericPrefix + UnknownErrorText))
  {
  }

  /** A parsed object that fails the schema is reported as a plain error with the invalid-format
      text after the generic prefix: it is no SyntaxError, so nothing is quoted. */
  lemma SchemaFailureReported(reply: Reply, parse: string -> Parsed, now: int, stamp: string)
    requires reply.Text? && parse(StripFence(reply.text)).Value?
    requires parse(StripFence(reply.text)).json.JObject?
    requires !PassesSchema(parse(StripFence(reply.text)).json.members)
    ensures PredictWeather(true, reply, parse, now, stamp)
              == Err(ServiceError(false, GenericPrefix + InvalidFormatMessage))
  {
    InvalidFormatNamesNoKey();
  }

  /** A reply that parses to `null` fails on reading its first field, a plain error. */
  lemma NullReplyReported(reply: Reply, parse: string -> Parsed, now: int, stamp: string)
    requires reply.Text? && parse(StripFence(reply.text)) == Value(JNull)
    ensures PredictWeather(true, reply, parse, now, stamp)
              == Err(ServiceError(false, GenericPrefix + NullReadMessage))
  {
    assert Attempt(reply, parse, now, stamp) == Err(Thrown(false, NullReadMessage));
    NullReadNamesNoKey();
  }

  /** A response without text fails on `trim`, a plain error. */
  lemma NoTextReported(parse: string -> Parsed, now: int, stamp: string)
    ensures PredictWeather(true, NoText, parse, now, stamp)
              == Err(ServiceError(false, GenericPrefix + NoTextMessage))
  {
    NoTextNamesNoKey();
  }
}
