# Caelus Prognostica, modelled in Dafny

Caelus Prognostica is a single-page weather app. It locates the browser, asks a generative
language model for a forecast in JSON, checks and normalises that reply, and renders it over a
backdrop chosen from the weather icon and from whether the sun is up. This project models the
logic of that app and proves properties of it:

- the 12-hour clock parsing and the day/night test, in the two copies the app carries (`daytime.dfy`);
- how the forecast service accepts a reply (`gemini.dfy`):
  - the Markdown fence is stripped;
  - the parsed value is checked against a fixed schema of fields;
  - numbers are rounded and `city` is normalised;
  - failures are classified;
- how the position request reports each outcome (`geolocation.dfy`);
- the icon glyph table and its accessible label (`weather_icon.dfy`);
- the page controller (`app.dfy`):
  - the backdrop it picks;
  - its eight state cells, changed in place by a `Controller` class whose methods are the begin and completion halves of the two asynchronous operations;
  - the effect that starts a forecast fetch;
  - the priority of the views in the main card.

`text.dfy` models the JavaScript string built-ins the code relies on:

- `trim`;
- `split` on one character;
- `parseInt`;
- `toLowerCase` as compared with `am` and `pm`;
- `replace` of one character;
- `substring(0, n)`;
- `includes`;
- decimal rendering of a number.

`types.dfy` holds the shared records. `wrappers.dfy` holds `Option` and `Result`.

Conventions:

- **Time.** A time of day is an integer count of minutes since local midnight. The current time is a parameter, floored to the minute. Sunrise and sunset always fall on minute boundaries, so flooring changes no comparison.
- **Remote calls.** The language-model call and `JSON.parse` are inputs. The reply is a `Reply`; `parse` yields a JSON value or a SyntaxError message.
- **Environment.** Whether an API key is configured, and whether the browser has geolocation, are boolean parameters.
- **Promise outcomes.** What the device answers and what an awaited promise settles with are parameters of the completion steps.

## Model

| member | source | states |
|---|---|---|
| Text.Trim | services/geminiService.ts:127 | the result has no white space at either end and is no longer than the text |
| Text.TrimIdempotent | services/geminiService.ts:127 | trimming a trimmed text changes nothing |
| Text.TrimPadded | services/geminiService.ts:127 | `trim` removes exactly the white space around a text that starts and ends with a non-space character |
| Text.Split | App.tsx:17-18 | `split` on one character always yields at least one piece |
| Text.SplitSingle | App.tsx:17-18 | a text splits into a single piece exactly when it does not hold the separator |
| Text.SplitNoSep | App.tsx:17-18 | a text without the separator splits into itself alone |
| Text.SplitAt | App.tsx:17-18 | a text whose first separator follows `a` splits into `a`, then the pieces of the rest |
| Text.SplitPartsFree | App.tsx:17-18 | no piece of a split contains the separator |
| Text.Join | App.tsx:17-18 | joining starts with the first piece, followed by the separator when there are more pieces (the inverse `split` is proved against) |
| Text.JoinSplit | App.tsx:17-18 | joining the pieces with the separator gives back the text |
| Text.SplitJoin | App.tsx:17-18 | splitting pieces joined by the separator, none containing it, gives back the pieces |
| Text.ParseInt | App.tsx:19-20 | NaN exactly when no digit follows the leading white space and the optional sign; otherwise the value of the leading digit run, negated exactly when the first non-blank character is `-` |
| Text.ParseIntDigits | App.tsx:19-20 | `parseInt` of digits followed by a non-digit is the decimal value of the digits |
| Text.ParseIntNoDigits | App.tsx:19-20 | `parseInt` is NaN whenever no digit follows the blanks and the optional sign, as for "x5" or "-a1" |
| Text.NatToStringValue | services/geolocationService.ts:31 | rendering a number in decimal and reading the digits back gives the number |
| Text.ParseIntNatToString | services/geolocationService.ts:31 | `parseInt` reads back a rendered number, whatever non-digit text follows |
| Text.LowerIsLowered | App.tsx:24-25 | comparing letter by letter after lower-casing is `toLowerCase() === word` |
| Text.ReplaceFirst | components/WeatherIcon.tsx:30 | `replace` of one character keeps the length and changes only the first occurrence |
| Text.Prefix | services/geminiService.ts:193 | `substring(0, n)` is the first `n` characters, or the whole of a shorter text |
| Types.IconNameRoundTrip | types.ts:6-22 | each of the sixteen icons is recovered from its literal, so the literals are distinct |
| Types.IconFromName | types.ts:6-22 | a text names an icon exactly when it is one of the sixteen literals |
| DayTime.ParseTime | App.tsx:16-29 | null exactly when the hour or the minute is NaN; a time is only read from a first word holding a `:` |
| DayTime.IsDayTime | App.tsx:11-37 | day exactly when there is no record, either time fails to parse, or now lies in `[sunrise, sunset)`; the tests for empty strings change nothing |
| DayTime.EmptyTimeIsNull | App.tsx:12 | an empty time never parses |
| DayTime.ParseClockString | App.tsx:16-29 | `"h:mm p"` parses to hour `h` converted by period `p`, times 60, plus `m` |
| DayTime.ParseClockWithoutPeriod | App.tsx:17-25 | with no period, "h:mm" with at most six digits per field reads as the hour as written times 60 plus the minutes |
| DayTime.TwelveHourClock | App.tsx:16-29 | on a well-formed 12-hour time the parse is the usual 12-hour reading (hour 12 counts as 0, PM adds 12) and lies within the day |
| DayTime.NoonAndMidnight | App.tsx:24-25 | `12 AM` is hour 0 and `12 PM` stays 12, in either case |
| DayTime.TwelveHourConversion | App.tsx:24-25 | for hours 1 to 12 the conversion is `h mod 12`, plus 12 for PM |
| DayTime.ParseTimeNeedsColon | App.tsx:18-22 | a time whose first word has no `:` never parses, because its minute is `parseInt(undefined)` |
| DayTime.ParseTimeNeedsHourDigits | App.tsx:19-22 | a time whose hour field has no digit never parses |
| DayTime.DefaultsToDay | App.tsx:12-34 | no record, an empty sunrise or sunset, or an unparseable time counts as day at every moment |
| DayTime.SunriseSunsetExample | App.tsx:31-36 | with 06:15 AM and 07:30 PM, day is exactly `[06:15, 19:30)`: 12:00 and 06:15 are day, 23:00 and 19:30 are night |
| DayTime.ServiceParseTime | services/geminiService.ts:26-33 | the service's copy throws exactly when the time has no `:`; a time it reads is the minute count of its fields |
| DayTime.ServiceIsDayTime | services/geminiService.ts:23-42 | it throws exactly when sunrise or sunset lacks a `:`, and otherwise says day exactly when both parse and now lies in `[sunrise, sunset)` |
| DayTime.ServiceParseClock | services/geminiService.ts:26-39 | the service's copy reads a clock string as the same minute of the day |
| DayTime.CopiesAgreeOnClockStrings | services/geminiService.ts:23-42 | on clock strings the service's `isDayTime` gives the same answer as the controller's |
| DayTime.CopiesDisagreeOnGarbage | services/geminiService.ts:26-41 | on an unreadable time they part ways: the controller says day, the service says night, or throws when there is no `:` |
| Gemini.ValidIconTypesExact | services/geminiService.ts:17-20 | the list has 16 distinct entries, and a text is listed exactly when it names an icon |
| Gemini.ListedIcon | services/geminiService.ts:152 | a listed name is the name of one icon |
| Gemini.FenceMatch | services/geminiService.ts:129-130 | the fence expression matches exactly when the text opens and closes with a fence; its groups then have the greedy and lazy shape |
| Gemini.InnerGroupsOf | services/geminiService.ts:129 | the groups of a given fence shape are the ones the expression yields |
| Gemini.FenceMatchOf | services/geminiService.ts:129-130 | a text of a given fence shape matches with exactly those groups |
| Gemini.StripFence | services/geminiService.ts:127-133 | the text given to `JSON.parse` has no surrounding white space, is no longer than the reply, and is the trimmed reply when that is not fenced |
| Gemini.Unfence | services/geminiService.ts:129-133 | an unfenced text is kept; a trimmed text stays trimmed and never grows |
| Gemini.StripFenceRoundTrip | services/geminiService.ts:127-133 | a fenced non-empty body, with or without tag and padding, comes back exactly |
| Gemini.StripFenceUnfenced | services/geminiService.ts:127-133 | text that is not fenced once trimmed is only trimmed |
| Gemini.StripFenceEmptyBody | services/geminiService.ts:131 | a fence with an empty body, as in "```json```", is left with its fences |
| Gemini.PassesSchemaIsSchema | services/geminiService.ts:137-154 | the field-by-field condition is: nine numbers, five strings, a listed icon, `city` null or a string |
| Gemini.Validate | services/geminiService.ts:137-157 | an object is accepted exactly when it passes the schema; `null` throws on the first read |
| Gemini.MissingCityRejected | services/geminiService.ts:153 | an object without `city` is rejected, because undefined is neither null nor a string |
| Gemini.ExtraKeysIgnored | services/geminiService.ts:137-183 | a key outside the schema changes neither acceptance nor the record |
| Gemini.Round | services/geminiService.ts:167-177 | `Math.round` gives the integer within one half below and under one half above |
| Gemini.RoundUnique | services/geminiService.ts:167-177 | that integer is unique, so integers are kept |
| Gemini.CityOf | services/geminiService.ts:181 | `city` is kept exactly when it is a non-empty string |
| Gemini.Normalize | services/geminiService.ts:166-183 | every number is rounded half-up, the texts are copied, `city` is kept only when non-empty, and the icon and time stamp are the given ones |
| Gemini.FinalIcon | services/geminiService.ts:159-163 | a listed name is its own icon |
| Gemini.LegacyRewriteUnreachable | services/geminiService.ts:152-163 | an accepted icon is never "partly-cloudy", so the rewrite is dead code |
| Gemini.Classify | services/geminiService.ts:185-196 | a failure is a key error exactly when it is an `Error` whose message contains "API key not valid", and a key error carries the invalid-key message |
| Gemini.SyntaxErrorQuotesReply | services/geminiService.ts:192-193 | a SyntaxError on a non-empty reply quotes at most its first 100 characters after the malformed-data prefix |
| Gemini.OtherFailuresWrapped | services/geminiService.ts:195 | every other failure is its own message, or "Unknown AI error" for a non-`Error`, after "Failed to get weather prediction from AI. " |
| Gemini.Attempt | services/geminiService.ts:119-183 | only the remote call and `JSON.parse` raise a SyntaxError, only the remote call raises a non-`Error`, and a failed call is rethrown as it is |
| Gemini.AcceptedFields | services/geminiService.ts:127-157 | a reply is accepted exactly when it has text, its stripped text parses, and the value passes the schema |
| Gemini.AttemptOutcome | services/geminiService.ts:127-183 | the request block returns a record exactly for accepted fields, and the record is those fields normalised |
| Gemini.PredictWeather | services/geminiService.ts:45-196 | with no client it rejects with a key error before any request; otherwise it succeeds exactly on accepted fields, and every failure of the request block is reported through `Classify` |
| Gemini.MalformedReplyQuoted | services/geminiService.ts:192-193 | a reply that does not parse as JSON is reported with its first 100 characters quoted |
| Gemini.InvalidKeyReported | services/geminiService.ts:187-190 | a call refused for an invalid key is reported as the key error with the invalid-key message |
| Gemini.CallFailureWrapped | services/geminiService.ts:185-195 | any other failed call keeps its message after the generic prefix, a SyntaxError included; a non-`Error` gives "Unknown AI error" |
| Gemini.SchemaFailureReported | services/geminiService.ts:154-157 | an object that fails the schema is a plain error: the generic prefix, then the invalid-format text |
| Gemini.NullReplyReported | services/geminiService.ts:135-138 | a reply that parses to `null` fails on reading its first field and is a plain error |
| Gemini.NoTextReported | services/geminiService.ts:127 | a response without text fails on `trim` and is a plain error |
| Gemini.NoKeyMarker | services/geminiService.ts:187 | a message without the letter 'k' never names an invalid key |
| Geolocation.ErrorSuffix | services/geolocationService.ts:20-33 | codes 1, 2 and 3 get their fixed texts; any other code is spelled out in "An unknown error occurred (Code: N)." |
| Geolocation.ErrorMessage | services/geolocationService.ts:19-34 | every failure message is the prefix "Error getting location: " followed by the suffix |
| Geolocation.GetCurrentLocation | services/geolocationService.ts:4-43 | no geolocation means no request and the not-supported message; a fix gives its latitude and longitude; a failure gives its message |
| Geolocation.RequestIsFreshAndAccurate | services/geolocationService.ts:36-40 | a request is made exactly when geolocation exists, always with high accuracy, a 10000 ms timeout and maximum age 0 |
| Geolocation.FixPassedOn | services/geolocationService.ts:12-17 | success resolves with exactly the position's latitude and longitude |
| Geolocation.FailuresCarryPrefix | services/geolocationService.ts:19 | every device failure begins with "Error getting location: " |
| Geolocation.NotSupportedIsNoFailure | services/geolocationService.ts:6-9 | the not-supported message is never one of the failure messages |
| Geolocation.ErrorMessageInjective | services/geolocationService.ts:20-33 | distinct codes give distinct messages |
| WeatherIcon.Glyph | components/WeatherIcon.tsx:11-28 | every icon has a non-empty glyph |
| WeatherIcon.GlyphFor | components/WeatherIcon.tsx:38 | a name in the table shows its glyph; any other name shows the `unknown` glyph |
| WeatherIcon.EveryIconHasGlyph | components/WeatherIcon.tsx:11-38 | the table covers every icon, so the fallback never replaces a valid icon's glyph |
| WeatherIcon.FallbackIsUnknown | components/WeatherIcon.tsx:38 | a name outside the enumeration shows what `unknown` shows |
| WeatherIcon.GlyphsShared | components/WeatherIcon.tsx:12-27 | two icons share a glyph exactly when they are equal or one of the pairs partly-cloudy day/night, heavy-rain/thunderstorm, fog/mist |
| WeatherIcon.AccessibleLabel | components/WeatherIcon.tsx:30 | the label is the name with only its first hyphen turned into a space |
| WeatherIcon.LabelOfHyphenated | components/WeatherIcon.tsx:30 | anything after the first hyphen, further hyphens included, is kept |
| WeatherIcon.LabelPartlyCloudyDay | components/WeatherIcon.tsx:30 | "partly-cloudy-day" is labelled "partly cloudy-day" |
| WeatherIcon.LabelSunny | components/WeatherIcon.tsx:30 | "sunny" is its own label |
| App.BackdropFor | App.tsx:43-68 | a night backdrop only at night; the default gradient only by day, for an icon outside the fixed, rain and snow groups |
| App.Background | App.tsx:40-43 | without a record the default gradient is shown |
| App.DefaultByDay | App.tsx:63-68 | an icon outside the fixed, rain and snow groups shows the default gradient by day and something else at night |
| App.BackgroundTimeIndependent | App.tsx:46-48 | sunny, partly-cloudy-day, cloudy, thunderstorm, fog and mist show one backdrop whatever the time, never a night one |
| App.RainFollowsDaylight | App.tsx:50-54 | rain, light-rain, heavy-rain and drizzle pick their day or night backdrop by `isDayTime` |
| App.SnowFollowsDaylight | App.tsx:55-59 | snow, light-snow and heavy-snow pick their day or night backdrop by `isDayTime` |
| App.NightBackdropOnlyAtNight | App.tsx:43-66 | a night backdrop is shown exactly at night for an icon outside the fixed six |
| App.CloudyNightOnlyForPartlyCloudyNight | App.tsx:63-65 | the cloudy-night backdrop is shown exactly for partly-cloudy-night at night |
| App.StartLocating | App.tsx:84-89 | locating shows the locating spinner and suspends the forecast effect, keeping the position and the key flag |
| App.LocationSettled | App.tsx:90-103 | locating ends; a position is stored and arms the effect exactly when no forecast is held; a failure leaves no position, disarms the effect and shows the card, with the unknown-location text for a non-`Error` |
| App.StartWeather | App.tsx:106-116 | the forecast and position are kept; with a key loading starts with no error; without one the key-error view shows the no-key message |
| App.WeatherSettled | App.tsx:119-136 | loading ends and the card shows; a record replaces the forecast and disarms the effect; a failure keeps the forecast, records an error, and sets the missing key exactly for a key error |
| App.WeatherTrigger | App.tsx:144 | while the condition holds no forecast and no locating spinner is shown |
| App.WeatherEffectFires | App.tsx:143-147 | the effect fires only after a render that changed the state, and only when its condition holds |
| App.InitialConsistent | App.tsx:73-80 | the first state is consistent, and the forecast effect's condition is off in it |
| App.StepsKeepConsistent | App.tsx:84-137 | every step keeps the state consistent: an error or a forecast comes with a visible card, and a loading forecast has no error or missing key |
| App.LocatingClears | App.tsx:85-89 | locating clears the forecast, both errors and the card, and shows the locating spinner |
| App.LocationFailure | App.tsx:93-100 | a failed location leaves no position, the error's message and a visible card |
| App.NoKeyNoRequest | App.tsx:107-113 | without a key: missing key set, its message, loading off, card shown; the forecast is kept, nothing is requested, and the effect does not fire again |
| App.FailedFetchKeepsForecast | App.tsx:119-136 | a failed fetch keeps the last forecast; loading ends after either outcome |
| App.FailureRecorded | App.tsx:123-133 | a key error sets the missing key with its message; another Error gets "Failed to fetch weather: "; anything else is an unknown error |
| App.LocatedStartsFetch | App.tsx:143-147 | after a successful location the effect fires for that position |
| App.FailedLocationStartsNoFetch | App.tsx:143-147 | after a failed location the effect does not fire |
| App.NoRetryLoop | App.tsx:143-147 | neither beginning a fetch nor its failure fires the effect again, so a failing service is not retried in a loop |
| App.ForecastStopsTrigger | App.tsx:144 | once a forecast arrives the effect's condition is off |
| App.RenderContent | App.tsx:164-216 | a forecast view shows the held forecast at the held position, with a banner exactly when a weather error is set; the key-error view shows exactly when the key is missing and locating is over; the weather error view only without a forecast |
| App.KeyErrorAndLocatingFirst | App.tsx:165-170 | the key error shows exactly when the key is missing and locating is over; the locating spinner shows exactly while locating |
| App.LocationErrorThird | App.tsx:171-173 | the location error shows exactly when it is set, no key error outranks it, and locating is over |
| App.ForecastWins | App.tsx:174-207 | with a position and a forecast in hand the forecast is shown; neither the loading spinner nor the error view replaces it |
| App.BannerOnlyAfterFailedRefresh | App.tsx:191-205 | in the forecast view the key is never missing, and the refresh banner shows exactly when a weather error is set |
| App.NoForecastViews | App.tsx:175-213 | without a forecast, loading outranks the weather error, which outranks the waiting spinner |
| App.LoadingHasNoError | App.tsx:175-199 | in a consistent state a loading forecast shows no error view and no banner |
| App.FromLocationLookup | App.tsx:91-95 | the position request settles with its coordinates or rejects with an Error carrying its message |
| App.FromForecast | App.tsx:120-127 | the forecast request settles with its record or rejects with an Error that may be marked as a key error |
| App.UnsupportedBrowserShown | App.tsx:84-104 | without geolocation the card shows the not-supported message and no forecast is fetched |
| App.InvalidKeyShown | App.tsx:123-127 | whatever reply the service turns into a key error, the card shows the key-error view with the invalid-key message |
| App.ForecastSurvivesFailedRefresh | App.tsx:84-216 | from the first render, a located forecast shows without a banner, stays on screen while a refresh loads, and after a failed refresh is still shown under the refresh banner |
| App.Controller.constructor | App.tsx:73-80 | the fields start as the first render's state |
| App.Controller.BeginFetchLocation | App.tsx:84-89 | the fields become `StartLocating` of the old state, which stays consistent |
| App.Controller.CompleteFetchLocation | App.tsx:90-103 | the fields become `LocationSettled` of the old state and the outcome |
| App.Controller.BeginFetchWeather | App.tsx:106-116 | the fields become `StartWeather` of the old state; a request is made exactly when a key is configured |
| App.Controller.CompleteFetchWeather | App.tsx:119-136 | the fields become `WeatherSettled` of the old state and the outcome |
| App.Controller.RunWeatherEffect | App.tsx:143-147 | when the effect fires it begins a fetch for the current position; otherwise nothing changes |
| App.Controller.RefreshWeather | App.tsx:158-162 | with a known position it begins a fetch for it; without one nothing changes |

## Left out

- The language-model client, the prompt and the network call (services/geminiService.ts:10-15, 52-125) are left out. They are a foreign library and I/O, so the reply is an input.
- `JSON.parse` is an input function, since the JSON grammar is outside this code. Its numbers are finite reals.
- `process.env` is left out. Key presence is a boolean. The service's `!ai` and the controller's `isApiKeyConfigured()` read the same variable, so both receive the same flag.
- `Date` and the clock are parameters:
  - `now` is minutes since midnight;
  - `lastUpdated` is an opaque string;
  - daylight-saving shifts inside `new Date(y, m, d, h, min)` are not modelled.
- Text.ParseInt: reads the exact value of any run of digits. `parseInt` also reads hexadecimal prefixes, rounds runs above 2^53 to the nearest double, and gives `Infinity` beyond about 309 digits. The clock strings of the day/night lemmas have at most six digits per field, so none of this arises there.
- DayTime.IsDayTime: does not model the range of `Date`. An hour or minute so large that `new Date(y, m, d, h, min)` falls outside ±8.64e15 ms gives an Invalid Date in the source. That date is truthy, and it compares false with the current time, so the source answers night where the model compares the minute counts. DayTime.ServiceIsDayTime has the same limit. The clock strings of the day/night lemmas keep each field to six digits, far inside the range.
- Text.Prefix: counts characters as code points, while `substring(0, 100)` counts UTF-16 code units. A reply with characters outside the Basic Multilingual Plane is quoted longer in the model than in the source. Where unit 100 falls inside a surrogate pair, the source keeps a lone high surrogate, which a Dafny `string` cannot hold.
- Gemini.SyntaxErrorQuotesReply: has the same code-point limit as Text.Prefix. So do Gemini.Classify and Gemini.MalformedReplyQuoted.
- `toLowerCase` is modelled on ASCII only. No character outside A-Z lower-cases to `a`, `m` or `p`, so every comparison with "am" or "pm" is unchanged.
- The JSX, the CSS class strings each backdrop stands for, the 100 ms fade-in timer (App.tsx:149-155) and the page layout (App.tsx:218-241) are presentation and timing. The timer only sets `mainCardVisible`.
- components/WeatherDisplay.tsx, LocationDisplay.tsx, ErrorDisplay.tsx and LoadingSpinner.tsx are not part of this model. They use locale time formatting and floating-point `toFixed`.
- Overlapping operations are left out: a refresh started while another fetch is pending, and React's scheduling of renders. Each begin step is followed by its own completion step.
- Each operation's state writes land together in one render, which is what React's batching does. Under unbatched rendering the intermediate renders would only delay the same effect.
- Effect dependencies are compared by value, not by object identity. On every path modelled, a new position also changes `isLoadingLocation`, so the effect fires in the same renders.
- `iconMap` lookups of inherited object properties (such as "constructor") are left out, because the icon is always one of the sixteen names.
- The glyph table is modelled with the emoji code points the names stand for, since the source text of the table is mis-encoded.
- Three engine messages (the invalid-format text and the two TypeError texts) are written in the Dafny source as concatenations of short pieces. The solver reasons about the characters of short literals only. The values are unchanged.
