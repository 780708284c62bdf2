/** The presentation controller (App.tsx): the backdrop chosen from the forecast and the time of
    day, the eight pieces of state the page keeps, the two asynchronous operations that update
    them (locating the user and fetching the forecast), each split at its `await` into a begin
    step and a completion step, the effect that starts a forecast fetch, and the choice of what
    the main card shows. The services are inputs: a completion step receives the value the awaited
    promise settled with, and the time of day arrives as minutes since midnight. */
module App {
  import opened Wrappers
  import opened Types
  import DayTime
  import Geolocation
  import Gemini

  // ---------------------------------------------------------------- backdrop

  /** The page backgrounds, one per string of CSS classes the controller can pick. */
  datatype Backdrop =
    | DefaultGradient | SunnyGlow | BrightShift | GreyShift
    | RainyDay | RainyNight | SnowyDay | SnowyNight
    | Storm | Haze | CloudyNight | ClearNight

  /** The backdrops meant for the night. */
  predicate IsNightBackdrop(b: Backdrop) {
    b == RainyNight || b == SnowyNight || b == CloudyNight || b == ClearNight
  }

  /** Icons whose backdrop does not depend on the time of day. */
  predicate FixedBackdropIcon(icon: IconType) {
    icon == Sunny || icon == PartlyCloudyDay || icon == Cloudy || icon == Thunderstorm ||
    icon == Fog || icon == Mist
  }

  predicate RainFamily(icon: IconType) {
    icon == Rain || icon == LightRain || icon == HeavyRain || icon == Drizzle
  }

  predicate SnowFamily(icon: IconType) {
    icon == Snow || icon == LightSnow || icon == HeavySnow
  }

  /** The backdrop for a forecast's icon, by day or by night: the chain of tests in
      `getWeatherBackgroundClasses` after the day/night test. */
  function BackdropFor(icon: IconType, day: bool): (b: Backdrop)
    ensures IsNightBackdrop(b) ==> !day
    ensures b == DefaultGradient ==> day && !FixedBackdropIcon(icon) && !RainFamily(icon) && !SnowFamily(icon)
  {
    match icon
    case Sunny => SunnyGlow
    case PartlyCloudyDay => BrightShift
    case Cloudy => GreyShift
    case Rain | LightRain | HeavyRain | Drizzle => if day then RainyDay else RainyNight
    case Snow | LightSnow | HeavySnow => if day then SnowyDay else SnowyNight
    case Thunderstorm => Storm
    case Fog | Mist => Haze
    case PartlyCloudyNight => if !day then CloudyNight else DefaultGradient
    case Windy | Unknown => if !day then ClearNight else DefaultGradient
  }

  /** `getWeatherBackgroundClasses`, as the backdrop it picks. An icon's name is never empty, so
      the default for a record without an icon is the default for no record. */
  function Background(weather: Option<WeatherData>, now: int): (b: Backdrop)
    ensures weather.None? ==> b == DefaultGradient
  {
    if weather.None? then DefaultGradient
    else BackdropFor(weather.value.icon, DayTime.IsDayTime(weather, now))
  }

  /** The fallback at the end of the chain is the default gradient: an icon outside the fixed,
      rain and snow groups shows it by day. */
  lemma DefaultByDay(icon: IconType)
    requires !FixedBackdropIcon(icon) && !RainFamily(icon) && !SnowFamily(icon)
    ensures BackdropFor(icon, true) == DefaultGradient
    ensures BackdropFor(icon, false) != DefaultGradient
  {
  }

  /** Six icons show one backdrop whatever the time, never a night one. */
  lemma BackgroundTimeIndependent(icon: IconType)
    requires FixedBackdropIcon(icon)
    ensures BackdropFor(icon, true) == BackdropFor(icon, false)
    ensures !IsNightBackdrop(BackdropFor(icon, true))
  {
  }

  /** A night backdrop is only ever shown at night, and every other icon shows one at night. */
  lemma NightBackdropOnlyAtNight(icon: IconType, day: bool)
    ensures IsNightBackdrop(BackdropFor(icon, day)) <==> !FixedBackdropIcon(icon) && !day
  {
  }

  /** The rain family switches between a day and a night backdrop of its own. */
  lemma RainFollowsDaylight(icon: IconType, day: bool)
    requires RainFamily(icon)
    ensures BackdropFor(icon, day) == if day then RainyDay else RainyNight
  {
  }

  /** So does the snow family. */
  lemma SnowFollowsDaylight(icon: IconType, day: bool)
    requires SnowFamily(icon)
    ensures BackdropFor(icon, day) == if day then SnowyDay else SnowyNight
  {
  }

  /** Only a partly cloudy night gets the cloudy night backdrop. */
  lemma CloudyNightOnlyForPartlyCloudyNight(icon: IconType, day: bool)
    ensures BackdropFor(icon, day) == CloudyNight <==> icon == PartlyCloudyNight && !day
  {
  }

  // ---------------------------------------------------------------- page state

  /** The eight `useState` cells of the page. */
  datatype UiState = UiState(
    location: Option<Coordinates>,
    weather: Option<WeatherData>,
    isLoadingLocation: bool,
    isLoadingWeather: bool,
    locationError: Option<string>,
    weatherError: Option<string>,
    apiKeyMissing: bool,
    mainCardVisible: bool)

  /** The state of the first render: locating, nothing known yet, the card hidden. */
  const Initial := UiState(None, None, true, false, None, None, false, false)

  /** What an awaited promise rejected with: an `Error` (with the `isApiKeyError` mark the
      forecast service may set) or some other value. */
  datatype Rejection = ErrorObject(message: string, isApiKeyError: bool) | NonError

  const LocationUnknownMessage := "An unknown error occurred while fetching location."
  const NoKeyMessage := "API Key is not configured. Please contact the administrator."
  const WeatherFailedPrefix := "Failed to fetch weather: "
  const WeatherUnknownMessage := "An unknown error occurred while fetching weather data."
  const NoKeyFallback := "API Key is not configured. This application cannot function without it."
  const BannerOpening := "Refresh failed: "
  const BannerClosing := ". Showing last forecast."

  /** JavaScript truthiness of a string that may be null: present and not empty. */
  predicate Truthy(s: Option<string>) {
    s.Some? && s.value != ""
  }

  /** `fetchLocation` up to its `await`: locating, with the forecast, both errors and the card
      cleared. */
  function StartLocating(s: UiState): (t: UiState)
    ensures !WeatherTrigger(t) && RenderContent(t) == LocatingSpinner
    ensures t.location == s.location && t.apiKeyMissing == s.apiKeyMissing
  {
    s.(isLoadingLocation := true, locationError := None, weather := None, weatherError := None,
       mainCardVisible := false)
  }

  /** `fetchLocation` after its `await`: the position, or the reason there is none. */
  function LocationSettled(s: UiState, outcome: Result<Coordinates, Rejection>): (t: UiState)
    ensures !t.isLoadingLocation && t.weather == s.weather
    ensures outcome.Ok? ==> t.location == Some(outcome.value) && (WeatherTrigger(t) <==> s.weather.None?)
    ensures outcome.Err? ==> t.location.None? && !WeatherTrigger(t) && t.mainCardVisible
    ensures outcome.Err? && outcome.error.NonError? ==> t.locationError == Some(LocationUnknownMessage)
  {
    match outcome
    case Ok(coords) => s.(location := Some(coords), isLoadingLocation := false)
    case Err(rejection) =>
      var message := if rejection.ErrorObject? then rejection.message else LocationUnknownMessage;
      s.(locationError := Some(message), location := None, mainCardVisible := true,
         isLoadingLocation := false)
  }

  /** `handleFetchWeather` up to its `await`. Without a key it reports the missing key and stops
      there; otherwise it clears the previous weather error and starts loading, keeping the last
      forecast on screen. */
  function StartWeather(s: UiState, keyConfigured: bool): (t: UiState)
    ensures t.weather == s.weather && t.location == s.location && t.isLoadingLocation == s.isLoadingLocation
    ensures keyConfigured ==> t.isLoadingWeather && t.weatherError.None? && !t.apiKeyMissing
    ensures !keyConfigured && !s.isLoadingLocation ==> RenderContent(t) == KeyErrorView(NoKeyMessage)
  {
    if !keyConfigured then
      s.(apiKeyMissing := true, weatherError := Some(NoKeyMessage), isLoadingWeather := false,
         mainCardVisible := true)
    else
      s.(apiKeyMissing := false, isLoadingWeather := true, weatherError := None)
  }

  /** `handleFetchWeather` after its `await`: the new forecast, or an error; loading ends
      either way. */
  function WeatherSettled(s: UiState, outcome: Result<WeatherData, Rejection>): (t: UiState)
    ensures !t.isLoadingWeather && t.mainCardVisible && t.location == s.location
    ensures outcome.Ok? ==> t.weather == Some(outcome.value) && !WeatherTrigger(t)
    ensures outcome.Err? ==> t.weather == s.weather && t.weatherError.Some?
    ensures outcome.Err? ==> (t.apiKeyMissing <==> s.apiKeyMissing || (outcome.error.ErrorObject? && outcome.error.isApiKeyError))
  {
    match outcome
    case Ok(data) => s.(weather := Some(data), mainCardVisible := true, isLoadingWeather := false)
    case Err(rejection) =>
      var s' :=
        if rejection.ErrorObject? && rejection.isApiKeyError then
          s.(apiKeyMissing := true, weatherError := Some(rejection.message))
        else if rejection.ErrorObject? then
          s.(weatherError := Some(WeatherFailedPrefix + rejection.message))
        else
          s.(weatherError := Some(WeatherUnknownMessage));
      s'.(mainCardVisible := true, isLoadingWeather := false)
  }

  /** The condition of the forecast effect: a position, no forecast, and not locating. */
  predicate WeatherTrigger(s: UiState)
    ensures WeatherTrigger(s) ==> !RenderContent(s).ForecastView? && RenderContent(s) != LocatingSpinner
  {
    s.location.Some? && s.weather.None? && !s.isLoadingLocation
  }

  /** The forecast effect runs after a render in which one of its dependencies changed, and
      then fetches when its condition holds. `handleFetchWeather` itself never changes. */
  predicate WeatherEffectFires(prev: UiState, cur: UiState)
    ensures WeatherEffectFires(prev, cur) ==> prev != cur && WeatherTrigger(cur)
  {
    (prev.location != cur.location || prev.weather != cur.weather ||
     prev.isLoadingLocation != cur.isLoadingLocation) && WeatherTrigger(cur)
  }

  /** What the state promises whatever happened before: anything worth showing (an error or a
      forecast) comes with a visible card, and a forecast that is loading has no error and no
      missing key recorded against it. */
  predicate Consistent(s: UiState) {
    (s.locationError.Some? || s.weather.Some? || s.weatherError.Some? ==> s.mainCardVisible) &&
    (s.isLoadingWeather ==> s.weatherError.None? && !s.apiKeyMissing)
  }

  lemma InitialConsistent()
    ensures Consistent(Initial) && WeatherTrigger(Initial) == false
  {
  }

  /** Every step keeps the state consistent. */
  lemma StepsKeepConsistent(s: UiState, key: bool, place: Result<Coordinates, Rejection>,
                            forecast: Result<WeatherData, Rejection>)
    requires Consistent(s)
    ensures Consistent(StartLocating(s))
    ensures Consistent(LocationSettled(s, place))
    ensures Consistent(StartWeather(s, key))
    ensures Consistent(WeatherSettled(s, forecast))
  {
  }

  // ---------------------------------------------------------------- what the card shows

  /** The content of the main card, from `renderContent`. */
  datatype View =
    | KeyErrorView(message: string)
    | LocatingSpinner
    | LocationErrorView(message: string)
    | WeatherSpinner(at: Coordinates)
    | WeatherErrorView(at: Coordinates, message: string)
    | ForecastView(at: Coordinates, city: Option<string>, forecast: WeatherData,
                   banner: Option<string>, refreshing: bool)
    | ConsultingSpinner(at: Coordinates)
    | Unsettled

  /** `renderContent`: the first branch whose condition holds decides. */
  function RenderContent(s: UiState): (v: View)
    ensures v.ForecastView? ==> s.location == Some(v.at) && s.weather == Some(v.forecast)
    ensures v.ForecastView? ==> (v.banner.Some? <==> Truthy(s.weatherError)) && v.refreshing == s.isLoadingWeather
    ensures v.KeyErrorView? <==> s.apiKeyMissing && !s.isLoadingLocation
    ensures v.LocationErrorView? ==> s.location.None? || s.locationError.Some?
    ensures v.WeatherErrorView? ==> s.weather.None? && Truthy(s.weatherError)
  {
    if s.apiKeyMissing && !s.isLoadingLocation then
      KeyErrorView(if Truthy(s.weatherError) then s.weatherError.value else NoKeyFallback)
    else if s.isLoadingLocation then LocatingSpinner
    else if Truthy(s.locationError) then LocationErrorView(s.locationError.value)
    else if s.location.Some? then
      var at := s.location.value;
      if s.isLoadingWeather && s.weather.None? then WeatherSpinner(at)
      else if Truthy(s.weatherError) && s.weather.None? && !s.apiKeyMissing then
        WeatherErrorView(at, s.weatherError.value)
      else if s.weather.Some? then
        var banner :=
          if Truthy(s.weatherError) && !s.apiKeyMissing
          then Some(BannerOpening + s.weatherError.value + BannerClosing)
          else None;
        ForecastView(at, s.weather.value.city, s.weather.value, banner, s.isLoadingWeather)
      else ConsultingSpinner(at)
    else Unsettled
  }

  /** A recorded missing key outranks everything once locating is over, and locating outranks
      every other view. */
  lemma KeyErrorAndLocatingFirst(s: UiState)
    ensures RenderContent(s).KeyErrorView? <==> s.apiKeyMissing && !s.isLoadingLocation
    ensures RenderContent(s) == LocatingSpinner <==> s.isLoadingLocation
  {
  }

  /** A location error is shown exactly when no missing key outranks it and locating is over. */
  lemma LocationErrorThird(s: UiState)
    ensures RenderContent(s).LocationErrorView? <==>
              !s.apiKeyMissing && !s.isLoadingLocation && Truthy(s.locationError)
  {
  }

  /** Once a position is known, a forecast in hand is always shown: neither the loading spinner
      nor the error view replaces it. */
  lemma ForecastWins(s: UiState)
    ensures RenderContent(s).ForecastView? <==>
              !s.apiKeyMissing && !s.isLoadingLocation && !Truthy(s.locationError) &&
              s.location.Some? && s.weather.Some?
  {
  }

  /** The refresh banner appears exactly when the last fetch failed for a reason other than the
      key; the key check inside the banner condition is already implied by the view. */
  lemma BannerOnlyAfterFailedRefresh(s: UiState)
    requires RenderContent(s).ForecastView?
    ensures !s.apiKeyMissing
    ensures RenderContent(s).banner.Some? <==> Truthy(s.weatherError)
    ensures RenderContent(s).refreshing == s.isLoadingWeather
    ensures RenderContent(s).forecast == s.weather.value
  {
  }

  /** Without a forecast, loading outranks a weather error, which outranks the waiting spinner. */
  lemma NoForecastViews(s: UiState)
    requires !s.apiKeyMissing && !s.isLoadingLocation && !Truthy(s.locationError)
    requires s.location.Some? && s.weather.None?
    ensures s.isLoadingWeather ==> RenderContent(s) == WeatherSpinner(s.location.value)
    ensures !s.isLoadingWeather && Truthy(s.weatherError) ==>
              RenderContent(s) == WeatherErrorView(s.location.value, s.weatherError.value)
    ensures !s.isLoadingWeather && !Truthy(s.weatherError) ==>
              RenderContent(s) == ConsultingSpinner(s.location.value)
  {
  }

  /** A consistent state never shows a weather error while that forecast is loading. */
  lemma LoadingHasNoError(s: UiState)
    requires Consistent(s) && s.isLoadingWeather
    ensures !RenderContent(s).WeatherErrorView? && !RenderContent(s).KeyErrorView?
    ensures RenderContent(s).ForecastView? ==> RenderContent(s).banner.None?
  {
  }

  // ---------------------------------------------------------------- the two operations

  /** Locating clears the forecast, both errors and the card, whatever came before. */
  lemma LocatingClears(s: UiState)
    ensures var t := StartLocating(s);
            t.weather.None? && t.locationError.None? && t.weatherError.None? &&
            !t.mainCardVisible && t.isLoadingLocation
    ensures RenderContent(StartLocating(s)) == LocatingSpinner
  {
  }

  /** A failed location leaves no position and an error the card shows. */
  lemma LocationFailure(s: UiState, rejection: Rejection)
    ensures var t := LocationSettled(s, Err(rejection));
            t.location.None? && t.locationError.Some? && t.mainCardVisible && !t.isLoadingLocation
    ensures rejection.ErrorObject? ==>
              LocationSettled(s, Err(rejection)).locationError == Some(rejection.message)
  {
  }

  /** Without a key nothing is requested and the missing key is shown. */
  lemma NoKeyNoRequest(s: UiState)
    requires !s.isLoadingLocation
    ensures var t := StartWeather(s, false);
            t.apiKeyMissing && t.weatherError == Some(NoKeyMessage) && !t.isLoadingWeather &&
            t.mainCardVisible && t.weather == s.weather && t.location == s.location
    ensures RenderContent(StartWeather(s, false)) == KeyErrorView(NoKeyMessage)
    ensures !WeatherEffectFires(s, StartWeather(s, false))
  {
  }

  /** A failed fetch keeps the last forecast; loading ends after either outcome. */
  lemma FailedFetchKeepsForecast(s: UiState, rejection: Rejection, data: WeatherData)
    ensures WeatherSettled(s, Err(rejection)).weather == s.weather
    ensures !WeatherSettled(s, Err(rejection)).isLoadingWeather
    ensures !WeatherSettled(s, Ok(data)).isLoadingWeather
    ensures WeatherSettled(s, Ok(data)).weather == Some(data)
  {
  }

  /** How a failure is recorded: a marked key error as the missing key with the service's own
      message, any other `Error` under the fetch prefix, anything else as an unknown error. */
  lemma FailureRecorded(s: UiState, rejection: Rejection)
    ensures var t := WeatherSettled(s, Err(rejection));
            (rejection.ErrorObject? && rejection.isApiKeyError ==>
               t.apiKeyMissing && t.weatherError == Some(rejection.message)) &&
            (rejection.ErrorObject? && !rejection.isApiKeyError ==>
               t.apiKeyMissing == s.apiKeyMissing &&
               t.weatherError == Some(WeatherFailedPrefix + rejection.message)) &&
            (rejection.NonError? ==>
               t.apiKeyMissing == s.apiKeyMissing && t.weatherError == Some(WeatherUnknownMessage))
  {
  }

  // ---------------------------------------------------------------- the forecast effect

  /** A successful location starts exactly one forecast fetch, for that position. */
  lemma LocatedStartsFetch(s: UiState, coords: Coordinates)
    ensures WeatherEffectFires(StartLocating(s), LocationSettled(StartLocating(s), Ok(coords)))
    ensures LocationSettled(StartLocating(s), Ok(coords)).location == Some(coords)
  {
  }

  /** A failed location starts no fetch. */
  lemma FailedLocationStartsNoFetch(s: UiState, rejection: Rejection)
    ensures !WeatherEffectFires(StartLocating(s), LocationSettled(StartLocating(s), Err(rejection)))
  {
  }

  /** A fetch that fails does not start another one: neither the begin step nor the failure
      changes a dependency of the effect, so a failing service is not retried in a loop. */
  lemma NoRetryLoop(s: UiState, key: bool, rejection: Rejection)
    ensures !WeatherEffectFires(s, StartWeather(s, key))
    ensures !WeatherEffectFires(StartWeather(s, key), WeatherSettled(StartWeather(s, key), Err(rejection)))
  {
  }

  /** Once a forecast arrives the effect's condition is off. */
  lemma ForecastStopsTrigger(s: UiState, data: WeatherData)
    ensures !WeatherTrigger(WeatherSettled(s, Ok(data)))
  {
  }

  // ---------------------------------------------------------------- the services plugged in

  /** `getCurrentLocation` settles with a coordinate pair or rejects with an `Error`. */
  function FromLocationLookup(r: Result<Coordinates, string>): (o: Result<Coordinates, Rejection>)
    ensures r.Ok? <==> o.Ok?
    ensures r.Ok? ==> o.value == r.value
    ensures r.Err? ==> o == Err(ErrorObject(r.error, false))
  {
    match r
    case Ok(coords) => Ok(coords)
    case Err(message) => Err(ErrorObject(message, false))
  }

  /** `predictWeather` settles with a record or rejects with an `Error` that may be marked as a
      key error. */
  function FromForecast(r: Result<WeatherData, Gemini.ServiceError>): (o: Result<WeatherData, Rejection>)
    ensures r.Ok? <==> o.Ok?
    ensures r.Ok? ==> o.value == r.value
    ensures r.Err? ==> o == Err(ErrorObject(r.error.message, r.error.isApiKeyError))
  {
    match r
    case Ok(data) => Ok(data)
    case Err(e) => Err(ErrorObject(e.message, e.isApiKeyError))
  }

  /** A browser without geolocation ends on the card with the service's message, never on a
      spinner, and no forecast is fetched. */
  lemma UnsupportedBrowserShown(s: UiState, outcome: Geolocation.PositionOutcome)
    requires !s.apiKeyMissing
    ensures var t := StartLocating(s);
            var u := LocationSettled(t, FromLocationLookup(Geolocation.GetCurrentLocation(false, outcome).result));
            RenderContent(u) == LocationErrorView(Geolocation.NotSupportedMessage) &&
            u.mainCardVisible && !WeatherEffectFires(t, u)
  {
  }

  /** A key the service reports as invalid is shown as the missing-key error with the service's
      message. */
  lemma InvalidKeyShown(s: UiState, reply: Gemini.Reply, parse: string -> Gemini.Parsed, now: int, stamp: string)
    requires !s.isLoadingLocation
    requires Gemini.PredictWeather(true, reply, parse, now, stamp).Err?
    requires Gemini.PredictWeather(true, reply, parse, now, stamp).error.isApiKeyError
    ensures var r := FromForecast(Gemini.PredictWeather(true, reply, parse, now, stamp));
            RenderContent(WeatherSettled(StartWeather(s, true), r)) == KeyErrorView(Gemini.InvalidKeyMessage)
  {
  }

  /** From the first render: locating succeeds, the effect fetches, the forecast arrives and is
      shown without a banner; a later refresh keeps it on screen while loading, and when that
      refresh fails it is still shown, now under the refresh banner. */
  lemma {:induction false} ForecastSurvivesFailedRefresh(coords: Coordinates, data: WeatherData, message: string)
    ensures var s1 := StartLocating(Initial);
            var s2 := LocationSettled(s1, Ok(coords));
            var s3 := StartWeather(s2, true);
            var s4 := WeatherSettled(s3, Ok(data));
            var s5 := StartWeather(s4, true);
            var s6 := WeatherSettled(s5, Err(ErrorObject(message, false)));
            WeatherEffectFires(s1, s2) && RenderContent(s3) == WeatherSpinner(coords) &&
            RenderContent(s4) == ForecastView(coords, data.city, data, None, false) &&
            RenderContent(s5) == ForecastView(coords, data.city, data, None, true) &&
            RenderContent(s6) == ForecastView(coords, data.city, data,
              Some(BannerOpening + (WeatherFailedPrefix + message) + BannerClosing), false)
  {
    var s1 := StartLocating(Initial);
    var s2 := LocationSettled(s1, Ok(coords));
    var s3 := StartWeather(s2, true);
    var s4 := WeatherSettled(s3, Ok(data));
    var s5 := StartWeather(s4, true);
    var s6 := WeatherSettled(s5, Err(ErrorObject(message, false)));
    assert Truthy(s6.weatherError);
  }

  // ---------------------------------------------------------------- the controller

  /** The page as an object whose eight fields the operations update in place. */
  class Controller {
    var location: Option<Coordinates>
    var weather: Option<WeatherData>
    var isLoadingLocation: bool
    var isLoadingWeather: bool
    var locationError: Option<string>
    var weatherError: Option<string>
    var apiKeyMissing: bool
    var mainCardVisible: bool

    /** The fields read together. */
    function State(): UiState
      reads this
    {
      UiState(location, weather, isLoadingLocation, isLoadingWeather, locationError, weatherError,
              apiKeyMissing, mainCardVisible)
    }

    predicate Valid()
      reads this
    {
      Consistent(State())
    }

    /** The first render. */
    constructor()
      ensures State() == Initial && Valid()
    {
      location := None;
      weather := None;
      isLoadingLocation := true;
      isLoadingWeather := false;
      locationError := None;
      weatherError := None;
      apiKeyMissing := false;
      mainCardVisible := false;
    }

    /** `fetchLocation`, up to the position request. */
    method BeginFetchLocation()
      requires Valid()
      modifies this
      ensures Valid() && State() == StartLocating(old(State()))
    {
      isLoadingLocation := true;
      locationError := None;
      weather := None;
      weatherError := None;
      mainCardVisible := false;
      StepsKeepConsistent(old(State()), true, Err(NonError), Err(NonError));
    }

    /** `fetchLocation`, once the position request has settled. */
    method CompleteFetchLocation(outcome: Result<Coordinates, Rejection>)
      requires Valid()
      modifies this
      ensures Valid() && State() == LocationSettled(old(State()), outcome)
    {
      match outcome {
        case Ok(coords) =>
          location := Some(coords);
        case Err(rejection) =>
          if rejection.ErrorObject? {
            locationError := Some(rejection.message);
          } else {
            locationError := Some(LocationUnknownMessage);
          }
          location := None;
          mainCardVisible := true;
      }
      isLoadingLocation := false;
      StepsKeepConsistent(old(State()), true, outcome, Err(NonError));
    }

    /** `handleFetchWeather`, up to the forecast request; `requested` tells whether the request
        is made. */
    method BeginFetchWeather(keyConfigured: bool) returns (requested: bool)
      requires Valid()
      modifies this
      ensures Valid() && State() == StartWeather(old(State()), keyConfigured)
      ensures requested == keyConfigured
    {
      if !keyConfigured {
        apiKeyMissing := true;
        weatherError := Some(NoKeyMessage);
        isLoadingWeather := false;
        mainCardVisible := true;
        StepsKeepConsistent(old(State()), keyConfigured, Err(NonError), Err(NonError));
        return false;
      }
      apiKeyMissing := false;
      isLoadingWeather := true;
      weatherError := None;
      StepsKeepConsistent(old(State()), keyConfigured, Err(NonError), Err(NonError));
      requested := true;
    }

    /** `handleFetchWeather`, once the forecast request has settled. */
    method CompleteFetchWeather(outcome: Result<WeatherData, Rejection>)
      requires Valid()
      modifies this
      ensures Valid() && State() == WeatherSettled(old(State()), outcome)
    {
      match outcome {
        case Ok(data) =>
          weather := Some(data);
          mainCardVisible := true;
        case Err(rejection) =>
          if rejection.ErrorObject? && rejection.isApiKeyError {
            apiKeyMissing := true;
            weatherError := Some(rejection.message);
          } else if rejection.ErrorObject? {
            weatherError := Some(WeatherFailedPrefix + rejection.message);
          } else {
            weatherError := Some(WeatherUnknownMessage);
          }
          mainCardVisible := true;
      }
      isLoadingWeather := false;
      StepsKeepConsistent(old(State()), true, Err(NonError), outcome);
    }

    /** The forecast effect after a render whose previous render had state `prev`: it begins a
        fetch for the current position when it fires. `requested` is the position a forecast is
        requested for, if any. */
    method RunWeatherEffect(prev: UiState, keyConfigured: bool) returns (requested: Option<Coordinates>)
      requires Valid()
      modifies this
      ensures Valid()
      ensures WeatherEffectFires(prev, old(State())) ==>
                State() == StartWeather(old(State()), keyConfigured) &&
                requested == (if keyConfigured then old(location) else None)
      ensures !WeatherEffectFires(prev, old(State())) ==> State() == old(State()) && requested.None?
    {
      requested := None;
      if WeatherEffectFires(prev, State()) {
        var coords := location;
        var made := BeginFetchWeather(keyConfigured);
        if made {
          requested := coords;
        }
      }
    }

    /** `onRefreshWeather`: a new fetch for the known position, if there is one. */
    method RefreshWeather(keyConfigured: bool) returns (requested: Option<Coordinates>)
      requires Valid()
      modifies this
      ensures Valid()
      ensures old(location).Some? ==>
                State() == StartWeather(old(State()), keyConfigured) &&
                requested == (if keyConfigured then old(location) else None)
      ensures old(location).None? ==> State() == old(State()) && requested.None?
    {
      requested := None;
      if location.Some? {
        var coords := location;
        var made := BeginFetchWeather(keyConfigured);
        if made {
          requested := coords;
        }
      }
    }
  }
}
