/** Day or night from 12-hour "h:mm AM/PM" sunrise and sunset strings. Two copies exist: the one
    the presentation controller uses to pick a background (App.tsx) and the one the forecast
    service would use to settle a legacy icon (services/geminiService.ts). They cut a time into
    the same three fields in a different order and read the fields the same way. Times are
    minutes since local midnight; `now` is the current time floored to the minute, which keeps
    every comparison because a parsed sunrise or sunset always falls on a minute boundary. */
module DayTime {
  import opened Wrappers
  import opened Text
  import opened Types

  const MinutesPerDay := 24 * 60
  const MaxClockDigits := 6

  /** `period?.toLowerCase() === word`: a period is present and is `word` ignoring case. */
  predicate IsPeriod(period: Option<string>, word: string) {
    period.Some? && LowerIs(period.value, word)
  }

  /** The hour conversion both copies apply: add 12 to a PM hour below 12, then turn an AM
      hour 12 into 0. Any other period, or none, leaves the hour as written. */
  function To24Hour(hours: int, period: Option<string>): int {
    var h := if IsPeriod(period, "pm") && hours < 12 then hours + 12 else hours;
    if IsPeriod(period, "am") && h == 12 then 0 else h
  }

  /** The text of a time cut into its hour, its minute (absent when there is no ':') and its
      period (absent when there is no second word). */
  datatype TimeFields = TimeFields(hour: string, minute: Option<string>, period: Option<string>)

  /** The controller's cut: the first space-separated word is split at ':' into hours and
      minutes, the second word is the period. */
  function AppFields(timeStr: string): TimeFields {
    var words := Split(timeStr, ' ');
    var parts := Split(words[0], ':');
    TimeFields(parts[0], if |parts| > 1 then Some(parts[1]) else None,
               if |words| > 1 then Some(words[1]) else None)
  }

  /** Minutes since midnight from numeric hour and minute, or `None` when either is NaN. */
  function ClockMinutes(hours: Option<int>, minutes: Option<int>, period: Option<string>): Option<int> {
    if hours.None? || minutes.None? then None
    else Some(To24Hour(hours.value, period) * 60 + minutes.value)
  }

  /** How both copies read the fields: `parseInt` on the hour and on the minute (a missing
      minute is `parseInt(undefined)`, NaN), then the hour conversion. */
  function FieldsMinutes(f: TimeFields): Option<int> {
    ClockMinutes(ParseInt(f.hour), if f.minute.Some? then ParseInt(f.minute.value) else None, f.period)
  }

  /** `parseTime` of App.tsx; `None` is the source's `null`, given exactly when the hour or the
      minute is NaN. A time is only ever read from a first word holding a ':'. */
  function ParseTime(timeStr: string): (r: Option<int>)
    ensures r.Some? ==> ':' in Split(timeStr, ' ')[0]
    ensures r.None? <==> || ParseInt(AppFields(timeStr).hour).None?
                         || AppFields(timeStr).minute.None?
                         || ParseInt(AppFields(timeStr).minute.value).None?
  {
    SplitSingle(Split(timeStr, ' ')[0], ':');
    FieldsMinutes(AppFields(timeStr))
  }

  /** `isDayTime` of App.tsx: day is the half-open interval from sunrise to sunset; a missing
      record, an empty sunrise or sunset, or a time that does not parse counts as day. An empty
      time never parses, so the tests for empty strings change nothing. */
  function IsDayTime(weather: Option<WeatherData>, now: int): (day: bool)
    ensures day <==> || weather.None?
                     || ParseTime(weather.value.sunrise).None?
                     || ParseTime(weather.value.sunset).None?
                     || ParseTime(weather.value.sunrise).value <= now < ParseTime(weather.value.sunset).value
  {
    EmptyTimeIsNull();
    if weather.None? || weather.value.sunrise == "" || weather.value.sunset == "" then true
    else
      match (ParseTime(weather.value.sunrise), ParseTime(weather.value.sunset))
      case (Some(rise), Some(fall)) => rise <= now < fall
      case _ => true
  }

  /** The empty string has no ':' and never parses. */
  lemma EmptyTimeIsNull()
    ensures ParseTime("") == None
  {
    SplitNoSep("", ' ');
    SplitNoSep("", ':');
  }

  // ---------------------------------------------------------------- reading the fields

  lemma ParseDigitString(ds: string)
    requires ds != [] && AllDigits(ds)
    ensures ParseInt(ds) == Some(DigitsValue(ds))
  {
    assert ds + [] == ds;
    ParseIntDigits(ds, []);
  }

  lemma FieldsMinutesOf(f: TimeFields, h: int, m: int)
    requires ParseInt(f.hour) == Some(h) && f.minute.Some? && ParseInt(f.minute.value) == Some(m)
    ensures FieldsMinutes(f) == ClockMinutes(Some(h), Some(m), f.period)
  {
  }

  /** Digit fields read as their decimal values `h` and `m`, converted by the period. */
  lemma FieldsMinutesOfDigits(hd: string, md: string, period: Option<string>, h: nat, m: nat)
    requires hd != [] && AllDigits(hd) && md != [] && AllDigits(md)
    requires |hd| <= MaxClockDigits && |md| <= MaxClockDigits
    requires h == DigitsValue(hd) && m == DigitsValue(md)
    ensures FieldsMinutes(TimeFields(hd, Some(md), period)) == Some(To24Hour(h, period) * 60 + m)
  {
    ParseDigitString(hd);
    ParseDigitString(md);
    FieldsMinutesOfNumbers(hd, md, period, h, m);
  }

  lemma FieldsMinutesOfNumbers(hd: string, md: string, period: Option<string>, h: int, m: int)
    requires ParseInt(hd) == Some(h) && ParseInt(md) == Some(m)
    ensures FieldsMinutes(TimeFields(hd, Some(md), period)) == Some(To24Hour(h, period) * 60 + m)
  {
    FieldsMinutesOf(TimeFields(hd, Some(md), period), h, m);
    ClockMinutesOf(h, m, period);
  }

  lemma ClockMinutesOf(h: int, m: int, period: Option<string>)
    ensures ClockMinutes(Some(h), Some(m), period) == Some(To24Hour(h, period) * 60 + m)
  {
  }

  // ---------------------------------------------------------------- clock strings

  /** A clock string: hour digits, ':', minute digits, one space and a period word. Each run of
      digits has at most six, so that the hour and minute stay far inside what `parseInt` reads
      exactly and what a `Date` can hold. */
  predicate ClockString(s: string, hd: string, md: string, p: string) {
    && hd != [] && AllDigits(hd) && |hd| <= MaxClockDigits
    && md != [] && AllDigits(md) && |md| <= MaxClockDigits
    && ' ' !in p && ':' !in p
    && s == hd + ":" + md + " " + p
  }

  lemma NoSpaceInDigitsColonDigits(hd: string, md: string)
    requires AllDigits(hd) && AllDigits(md)
    ensures ' ' !in hd + ":" + md && ':' !in hd && ':' !in md && ' ' !in md
  {
    var t := hd + ":" + md;
    assert forall i :: 0 <= i < |t| ==> IsDigit(t[i]) || t[i] == ':';
  }

  /** The words and parts of `hd:md p`. */
  lemma SplitClockString(s: string, hd: string, md: string, p: string)
    requires ClockString(s, hd, md, p)
    ensures Split(s, ' ') == [hd + ":" + md, p]
    ensures Split(hd + ":" + md, ':') == [hd, md]
  {
    NoSpaceInDigitsColonDigits(hd, md);
    assert s == (hd + ":" + md) + [' '] + p;
    SplitAt(hd + ":" + md, ' ', p);
    SplitNoSep(p, ' ');
    assert hd + ":" + md == hd + [':'] + md;
    SplitAt(hd, ':', md);
    SplitNoSep(md, ':');
  }

  lemma AppFieldsOfParts(s: string, word: string, p: string, hd: string, md: string)
    requires Split(s, ' ') == [word, p] && Split(word, ':') == [hd, md]
    ensures AppFields(s) == TimeFields(hd, Some(md), Some(p))
  {
  }

  /** The controller cuts a clock string into its digits and its period. */
  lemma AppFieldsOfClock(s: string, hd: string, md: string, p: string)
    requires ClockString(s, hd, md, p)
    ensures AppFields(s) == TimeFields(hd, Some(md), Some(p))
  {
    SplitClockString(s, hd, md, p);
    AppFieldsOfParts(s, hd + ":" + md, p, hd, md);
  }

  /** A clock string parses to its hour `h`, converted by its period, and its minute `m`. */
  lemma ParseClockString(s: string, hd: string, md: string, p: string, h: nat, m: nat)
    requires ClockString(s, hd, md, p) && h == DigitsValue(hd) && m == DigitsValue(md)
    ensures ParseTime(s) == Some(To24Hour(h, Some(p)) * 60 + m)
  {
    AppFieldsOfClock(s, hd, md, p);
    FieldsMinutesOfDigits(hd, md, Some(p), h, m);
  }

  lemma SplitClockWithoutPeriod(hd: string, md: string)
    requires AllDigits(hd) && AllDigits(md)
    ensures Split(hd + ":" + md, ' ') == [hd + ":" + md]
    ensures Split(hd + ":" + md, ':') == [hd, md]
  {
    NoSpaceInDigitsColonDigits(hd, md);
    SplitNoSep(hd + ":" + md, ' ');
    assert hd + ":" + md == hd + [':'] + md;
    SplitAt(hd, ':', md);
    SplitNoSep(md, ':');
  }

  lemma AppFieldsWithoutPeriod(s: string, hd: string, md: string)
    requires Split(s, ' ') == [s] && Split(s, ':') == [hd, md]
    ensures AppFields(s) == TimeFields(hd, Some(md), None)
  {
  }

  /** Without a period the hour is kept as written, as for "18:30" (fields of at most six digits). */
  lemma ParseClockWithoutPeriod(s: string, hd: string, md: string, h: nat, m: nat)
    requires hd != [] && AllDigits(hd) && md != [] && AllDigits(md)
    requires |hd| <= MaxClockDigits && |md| <= MaxClockDigits
    requires s == hd + ":" + md && h == DigitsValue(hd) && m == DigitsValue(md)
    ensures ParseTime(s) == Some(h * 60 + m)
  {
    SplitClockWithoutPeriod(hd, md);
    ParseTimeWithoutPeriod(s, hd, md, h, m);
  }

  lemma ParseTimeWithoutPeriod(s: string, hd: string, md: string, h: nat, m: nat)
    requires hd != [] && AllDigits(hd) && md != [] && AllDigits(md)
    requires |hd| <= MaxClockDigits && |md| <= MaxClockDigits
    requires h == DigitsValue(hd) && m == DigitsValue(md)
    requires Split(s, ' ') == [s] && Split(s, ':') == [hd, md]
    ensures ParseTime(s) == Some(h * 60 + m)
  {
    AppFieldsWithoutPeriod(s, hd, md);
    FieldsMinutesOfDigits(hd, md, None, h, m);
  }

  /** On a well-formed 12-hour time (hour 1 to 12, minute below 60, period AM or PM in any case)
      the parse agrees with the usual reading of a 12-hour clock: hour 12 counts as 0, PM adds 12
      hours, and the result lies within the day. */
  lemma TwelveHourClock(s: string, hd: string, md: string, p: string, h: nat, m: nat)
    requires ClockString(s, hd, md, p) && h == DigitsValue(hd) && m == DigitsValue(md)
    requires 1 <= h <= 12 && m < 60
    requires LowerIs(p, "am") || LowerIs(p, "pm")
    ensures ParseTime(s).Some?
    ensures ParseTime(s).value == ((h % 12) + (if LowerIs(p, "pm") then 12 else 0)) * 60 + m
    ensures 0 <= ParseTime(s).value < MinutesPerDay
  {
    ParseClockString(s, hd, md, p, h, m);
    TwelveHourConversion(h, p);
  }

  lemma TwelveHourConversion(h: int, p: string)
    requires 1 <= h <= 12
    requires LowerIs(p, "am") || LowerIs(p, "pm")
    ensures To24Hour(h, Some(p)) == (h % 12) + (if LowerIs(p, "pm") then 12 else 0)
  {
    if LowerIs(p, "am") {
      AmIsNotPm(p);
    }
  }

  lemma AmIsNotPm(p: string)
    requires LowerIs(p, "am")
    ensures !LowerIs(p, "pm")
  {
    assert LowerAscii(p[0]) == 'a';
  }

  /** "12:mm AM" is just after midnight and "12:mm PM" just after noon. */
  lemma NoonAndMidnight()
    ensures To24Hour(12, Some("AM")) == 0 && To24Hour(12, Some("am")) == 0
    ensures To24Hour(12, Some("PM")) == 12 && To24Hour(12, Some("pm")) == 12
  {
    assert LowerAscii("PM"[0]) != "am"[0] && LowerAscii("pm"[0]) != "am"[0];
  }

  // ---------------------------------------------------------------- failures and defaults

  /** A time whose first word has no ':' never parses: its minute is `parseInt(undefined)`. */
  lemma ParseTimeNeedsColon(timeStr: string)
    requires ':' !in Split(timeStr, ' ')[0]
    ensures ParseTime(timeStr) == None
  {
    SplitNoSep(Split(timeStr, ' ')[0], ':');
  }

  /** A time whose hour field holds no digit never parses. */
  lemma ParseTimeNeedsHourDigits(timeStr: string)
    requires forall c :: c in AppFields(timeStr).hour ==> !IsDigit(c)
    ensures ParseTime(timeStr) == None
  {
    NoDigitsNoBody(AppFields(timeStr).hour);
    ParseIntNoDigits(AppFields(timeStr).hour);
  }

  /** A record with sunrise and sunset that do not parse, or are empty, is treated as daytime at
      every moment, as is a missing record. */
  lemma DefaultsToDay(weather: Option<WeatherData>, now: int)
    requires weather.Some? ==>
               weather.value.sunrise == "" || weather.value.sunset == ""
               || ParseTime(weather.value.sunrise).None? || ParseTime(weather.value.sunset).None?
    ensures IsDayTime(weather, now)
  {
  }

  // ---------------------------------------------------------------- an example

  lemma SunriseExampleParts()
    ensures ClockString("06:15 AM", "06", "15", "AM")
    ensures DigitsValue("06") == 6 && DigitsValue("15") == 15 && LowerIs("AM", "am")
    ensures !LowerIs("AM", "pm")
  {
    assert "06"[..1] == "0" && "15"[..1] == "1";
    assert LowerAscii("AM"[0]) != "pm"[0];
  }

  lemma SunsetExampleParts()
    ensures ClockString("07:30 PM", "07", "30", "PM")
    ensures DigitsValue("07") == 7 && DigitsValue("30") == 30 && LowerIs("PM", "pm")
    ensures !LowerIs("PM", "am")
  {
    assert "07"[..1] == "0" && "30"[..1] == "3";
    assert LowerAscii("PM"[0]) != "am"[0];
  }

  lemma ParseSunriseExample(s: string, hd: string, md: string, p: string)
    requires ClockString(s, hd, md, p) && DigitsValue(hd) == 6 && DigitsValue(md) == 15
    requires LowerIs(p, "am") && !LowerIs(p, "pm")
    ensures ParseTime(s) == Some(6 * 60 + 15)
  {
    ParseClockString(s, hd, md, p, 6, 15);
    TwelveHourConversion(6, p);
  }

  lemma ParseSunsetExample(s: string, hd: string, md: string, p: string)
    requires ClockString(s, hd, md, p) && DigitsValue(hd) == 7 && DigitsValue(md) == 30
    requires LowerIs(p, "pm")
    ensures ParseTime(s) == Some(19 * 60 + 30)
  {
    ParseClockString(s, hd, md, p, 7, 30);
    TwelveHourConversion(7, p);
  }

  /** With sunrise "06:15 AM" and sunset "07:30 PM": noon and 06:15 are day, 23:00 and 19:30 are
      night; the interval is closed at sunrise and open at sunset. */
  lemma SunriseSunsetExample(w: WeatherData)
    requires w.sunrise == "06:15 AM" && w.sunset == "07:30 PM"
    ensures IsDayTime(Some(w), 12 * 60)
    ensures !IsDayTime(Some(w), 23 * 60)
    ensures IsDayTime(Some(w), 6 * 60 + 15)
    ensures !IsDayTime(Some(w), 19 * 60 + 30)
    ensures forall now :: IsDayTime(Some(w), now) <==> 6 * 60 + 15 <= now < 19 * 60 + 30
  {
    SunriseExampleParts();
    ParseSunriseExample(w.sunrise, "06", "15", "AM");
    SunsetExampleParts();
    ParseSunsetExample(w.sunset, "07", "30", "PM");
  }

  // ---------------------------------------------------------------- the service's copy

  /** How the service's copy reads one time: it throws a TypeError when there is no ':' (the
      minute-and-period half is undefined), builds an invalid date when `parseInt` gives NaN, and
      otherwise a time of day. */
  datatype ServiceClock = Crash | InvalidDate | At(minutes: int)

  /** The service's cut: split at ':' first, then split the second half at ' ' into minute and
      period; `None` when there is no second half. */
  function ServiceFields(s: string): Option<TimeFields> {
    var halves := Split(s, ':');
    if |halves| < 2 then None
    else
      var rest := Split(halves[1], ' ');
      Some(TimeFields(halves[0], Some(rest[0]), if |rest| > 1 then Some(rest[1]) else None))
  }

  /** The service's reading of one time. A NaN hour survives the conversion unchanged (both of
      its comparisons are false) and makes the date invalid, as a NaN minute does. */
  function ServiceParseTime(s: string): (r: ServiceClock)
    ensures r.Crash? <==> ':' !in s
    ensures r.At? ==> ServiceFields(s).Some? && FieldsMinutes(ServiceFields(s).value) == Some(r.minutes)
  {
    SplitSingle(s, ':');
    match ServiceFields(s)
    case None => Crash
    case Some(f) =>
      match FieldsMinutes(f)
      case None => InvalidDate
      case Some(m) => At(m)
  }

  /** `isDayTime` of the service: `None` when it throws, otherwise the half-open interval test,
      in which an invalid date compares false, so an unparseable time means night. */
  function ServiceIsDayTime(sunrise: string, sunset: string, now: int): (r: Option<bool>)
    ensures r.None? <==> ':' !in sunrise || ':' !in sunset
    ensures r.Some? ==> (r.value <==> && ServiceParseTime(sunrise).At? && ServiceParseTime(sunset).At?
                                      && ServiceParseTime(sunrise).minutes <= now < ServiceParseTime(sunset).minutes)
  {
    var rise := ServiceParseTime(sunrise);
    var fall := ServiceParseTime(sunset);
    if rise.Crash? || fall.Crash? then None
    else if rise.At? && fall.At? then Some(rise.minutes <= now < fall.minutes)
    else Some(false)
  }

  /** The service's split of `hd:md p`: at ':' first, then the tail at ' '. */
  lemma ServiceSplitClockString(s: string, hd: string, md: string, p: string)
    requires ClockString(s, hd, md, p)
    ensures Split(s, ':') == [hd, md + " " + p]
    ensures Split(md + " " + p, ' ') == [md, p]
  {
    NoSpaceInDigitsColonDigits(hd, md);
    var tail := md + " " + p;
    assert s == hd + [':'] + tail;
    assert ':' !in tail by {
      assert forall i :: 0 <= i < |tail| ==> IsDigit(tail[i]) || tail[i] == ' ' || tail[i] in p;
    }
    SplitAt(hd, ':', tail);
    SplitNoSep(tail, ':');
    assert tail == md + [' '] + p;
    SplitAt(md, ' ', p);
    SplitNoSep(p, ' ');
  }

  lemma ServiceFieldsOfParts(s: string, hd: string, tail: string, md: string, p: string)
    requires Split(s, ':') == [hd, tail] && Split(tail, ' ') == [md, p]
    ensures ServiceFields(s) == Some(TimeFields(hd, Some(md), Some(p)))
  {
  }

  /** The service cuts a clock string into the same fields as the controller. */
  lemma ServiceFieldsOfClock(s: string, hd: string, md: string, p: string)
    requires ClockString(s, hd, md, p)
    ensures ServiceFields(s) == Some(TimeFields(hd, Some(md), Some(p)))
  {
    ServiceSplitClockString(s, hd, md, p);
    ServiceFieldsOfParts(s, hd, md + " " + p, md, p);
  }

  lemma ServiceParseClock(s: string, hd: string, md: string, p: string, h: nat, m: nat)
    requires ClockString(s, hd, md, p) && h == DigitsValue(hd) && m == DigitsValue(md)
    ensures ServiceParseTime(s) == At(To24Hour(h, Some(p)) * 60 + m)
  {
    ServiceFieldsOfClock(s, hd, md, p);
    FieldsMinutesOfDigits(hd, md, Some(p), h, m);
  }

  /** On clock strings the two copies classify every moment identically. */
  lemma CopiesAgreeOnClockStrings(w: WeatherData, now: int, hd: string, md: string, p: string,
                                   hd': string, md': string, p': string)
    requires ClockString(w.sunrise, hd, md, p) && ClockString(w.sunset, hd', md', p')
    ensures ServiceIsDayTime(w.sunrise, w.sunset, now) == Some(IsDayTime(Some(w), now))
  {
    CopiesReadClockAlike(w.sunrise, hd, md, p);
    CopiesReadClockAlike(w.sunset, hd', md', p');
    CopiesAgreeOnReadTimes(w, now);
  }

  lemma CopiesReadClockAlike(s: string, hd: string, md: string, p: string)
    requires ClockString(s, hd, md, p)
    ensures ServiceParseTime(s).At? && ParseTime(s) == Some(ServiceParseTime(s).minutes)
  {
    ServiceParseClock(s, hd, md, p, DigitsValue(hd), DigitsValue(md));
    ParseClockString(s, hd, md, p, DigitsValue(hd), DigitsValue(md));
  }

  lemma CopiesAgreeOnReadTimes(w: WeatherData, now: int)
    requires ServiceParseTime(w.sunrise).At? && ParseTime(w.sunrise) == Some(ServiceParseTime(w.sunrise).minutes)
    requires ServiceParseTime(w.sunset).At? && ParseTime(w.sunset) == Some(ServiceParseTime(w.sunset).minutes)
    ensures ServiceIsDayTime(w.sunrise, w.sunset, now) == Some(IsDayTime(Some(w), now))
  {
  }

  lemma GarbageParts()
    ensures "x:y AM" == "x" + [':'] + "y AM" && "x:y AM" == "x:y" + [' '] + "AM"
    ensures "x:y" == "x" + [':'] + "y" && ':' !in "dawn"
    ensures ' ' !in "x:y" && ':' !in "x" && ':' !in "y AM" && ' ' !in "y"
    ensures forall i :: 0 <= i < |"x"| ==> !IsDigit("x"[i])
  {
  }

  lemma ServiceParseGarbage(s: string, t: string)
    requires s == "x:y AM" && t == "dawn"
    ensures ServiceParseTime(s) == InvalidDate
    ensures ServiceParseTime(t) == Crash
  {
    GarbageParts();
    SplitAt("x", ':', "y AM");
    SplitNoSep(t, ':');
    NoDigitsNoBody("x");
    ParseIntNoDigits("x");
  }

  lemma ParseGarbage(s: string)
    requires s == "x:y AM"
    ensures ParseTime(s) == None
  {
    GarbageParts();
    SplitAt("x:y", ' ', "AM");
    SplitAt("x", ':', "y");
    NoDigitsNoBody("x");
    ParseIntNoDigits("x");
  }

  /** The copies part ways on a time they cannot read: "x:y AM" is day to the controller and
      night to the service, and a time without ':' makes the service throw. */
  lemma CopiesDisagreeOnGarbage(w: WeatherData, now: int, noColon: string)
    requires w.sunrise == "x:y AM" && w.sunset == "07:30 PM" && noColon == "dawn"
    ensures IsDayTime(Some(w), now)
    ensures ServiceIsDayTime(w.sunrise, w.sunset, now) == Some(false)
    ensures ServiceIsDayTime(noColon, w.sunset, now) == None
  {
    ParseGarbage(w.sunrise);
    ServiceParseGarbage(w.sunrise, noColon);
    SunsetExampleParts();
    ServiceParseClock(w.sunset, "07", "30", "PM", 7, 30);
  }
}
