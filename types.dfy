/** The application's shared data types: coordinates, the closed set of weather icons and the
    forecast record (types.ts). */
module Types {
  import opened Wrappers

  /** A position as the browser reports it. */
  datatype Coordinates = Coordinates(latitude: real, longitude: real)

  /** The closed enumeration of weather icons. */
  datatype IconType =
    | Sunny | Cloudy | PartlyCloudyDay | PartlyCloudyNight
    | Rain | LightRain | HeavyRain
    | Snow | LightSnow | HeavySnow
    | Thunderstorm | Fog | Windy | Mist | Drizzle | Unknown

  /** The string literal each icon is written as. */
  function IconName(icon: IconType): string {
    match icon
    case Sunny => "sunny"
    case Cloudy => "cloudy"
    case PartlyCloudyDay => "partly-cloudy-day"
    case PartlyCloudyNight => "partly-cloudy-night"
    case Rain => "rain"
    case LightRain => "light-rain"
    case HeavyRain => "heavy-rain"
    case Snow => "snow"
    case LightSnow => "light-snow"
    case HeavySnow => "heavy-snow"
    case Thunderstorm => "thunderstorm"
    case Fog => "fog"
    case Windy => "windy"
    case Mist => "mist"
    case Drizzle => "drizzle"
    case Unknown => "unknown"
  }

  /** The icon a string literal names, if any: the inverse of `IconName`. */
  function IconFromName(name: string): (r: Option<IconType>)
    ensures r.Some? ==> IconName(r.value) == name
    ensures r.None? ==> forall icon :: IconName(icon) != name
  {
    if name == "sunny" then Some(Sunny)
    else if name == "cloudy" then Some(Cloudy)
    else if name == "partly-cloudy-day" then Some(PartlyCloudyDay)
    else if name == "partly-cloudy-night" then Some(PartlyCloudyNight)
    else if name == "rain" then Some(Rain)
    else if name == "light-rain" then Some(LightRain)
    else if name == "heavy-rain" then Some(HeavyRain)
    else if name == "snow" then Some(Snow)
    else if name == "light-snow" then Some(LightSnow)
    else if name == "heavy-snow" then Some(HeavySnow)
    else if name == "thunderstorm" then Some(Thunderstorm)
    else if name == "fog" then Some(Fog)
    else if name == "windy" then Some(Windy)
    else if name == "mist" then Some(Mist)
    else if name == "drizzle" then Some(Drizzle)
    else if name == "unknown" then Some(Unknown)
    else None
  }

  /** Every icon is recovered from its name, so distinct icons have distinct, non-empty names. */
  lemma IconNameRoundTrip(icon: IconType)
    ensures IconFromName(IconName(icon)) == Some(icon)
    ensures IconName(icon) != ""
  {
  }

  /** The forecast record. The numeric fields hold integers because the only producer of a record
      rounds every one of them; `city` is absent rather than empty. */
  datatype WeatherData = WeatherData(
    temperature: int,
    humidity: int,
    windSpeed: int,
    description: string,
    icon: IconType,
    city: Option<string>,
    feelsLike: int,
    pressure: int,
    visibility: int,
    uvIndex: int,
    precipitationChance: int,
    sunrise: string,
    sunset: string,
    aqi: int,
    aqiDescription: string,
    lastUpdated: string)
}
