/** The worker's environment routes: its own copies of the time-band and weather-bucket
    helpers, the cache-first weather lookups over the KV store, and the dispatch between
    coordinates and city in the `/current` and `/weather` handlers. The weather provider
    appears as a function parameter from the request URL to the reply received. */
module WorkerEnvironment {
  import opened Common
  import EnvironmentMapper

  /** The worker's getTimeOfDay; it draws exactly the same band boundaries as the API's. */
  function GetTimeOfDay(hour: int): (band: string)
    ensures band == EnvironmentMapper.TimeOfDayName(EnvironmentMapper.GetTimeOfDay(hour))
  {
    if hour >= 5 && hour < 9 then "morning"
    else if hour >= 9 && hour < 12 then "late_morning"
    else if hour >= 12 && hour < 17 then "afternoon"
    else if hour >= 17 && hour < 21 then "evening"
    else "night"
  }

  /** The worker's normalizeWeatherCondition; it is the API's mapping, written with the
      thunderstorm and drizzle/rain groups as separate tests. */
  function NormalizeWeatherCondition(code: int): (condition: string)
    ensures condition == EnvironmentMapper.WeatherConditionName(EnvironmentMapper.NormalizeWeatherCondition(code))
  {
    if code >= 200 && code < 300 then "rain"
    else if code >= 300 && code < 600 then "rain"
    else if code >= 600 && code < 700 then "snow"
    else if code >= 700 && code < 800 then "other"
    else if code == 800 then "clear"
    else if code > 800 && code < 900 then "clouds"
    else "other"
  }

  /** `Math.round`: halves round up. */
  function JsRound(x: real): (n: int)
    ensures x - 0.5 < n as real <= x + 0.5
  {
    (x + 0.5).Floor
  }

  datatype WeatherData = WeatherData(
    location: string, temperature: int, condition: string, conditionCode: int,
    description: string, humidity: int, windSpeed: real, timestamp: int)

  /** The provider's reply: a non-OK status, or the fields of an OK body that are read. */
  datatype ProviderReply =
    | NotOk
    | Body(name: string, temp: real, code: int, description: string, humidity: int, windSpeed: real)

  const ProviderUrl: string := "https://api.openweathermap.org/data/2.5/weather"

  /** The key of a coordinate lookup. `lat` and `lon` are the printed numbers that
      `parseFloat` read from the query, not the query text itself. */
  function CoordsKey(lat: string, lon: string): string {
    "weather:" + lat + ":" + lon
  }

  function CityKey(city: string): string {
    "weather:city:" + city
  }

  /** A printed number has no colon, so the key splits back into its two coordinates. */
  lemma CoordsKeyFields(lat: string, lon: string)
    requires ':' !in lat && ':' !in lon
    ensures Split(CoordsKey(lat, lon), ':') == ["weather", lat, lon]
  {
    SplitWithoutSeparator(lon, ':');
    SplitAfterWord(lat, ':', lon);
    assert lat + ":" + lon == lat + [':'] + lon;
    assert CoordsKey(lat, lon) == "weather" + [':'] + (lat + ":" + lon);
    SplitAfterWord("weather", ':', lat + ":" + lon);
  }

  /** Distinct coordinates never share an entry, and no coordinate entry is a city entry
      (no number prints as `city`). */
  lemma CoordsKeysDistinct(lat1: string, lon1: string, lat2: string, lon2: string, city: string)
    requires ':' !in lat1 && ':' !in lon1 && ':' !in lat2 && ':' !in lon2 && lat1 != "city"
    ensures CoordsKey(lat1, lon1) == CoordsKey(lat2, lon2) ==> lat1 == lat2 && lon1 == lon2
    ensures CoordsKey(lat1, lon1) != CityKey(city)
  {
    CoordsKeyFields(lat1, lon1);
    CoordsKeyFields(lat2, lon2);
    assert CityKey(city) == "weather" + [':'] + ("city" + [':'] + city);
    SplitAfterWord("weather", ':', "city" + [':'] + city);
    SplitAfterWord("city", ':', city);
    assert Split(CityKey(city), ':')[1] == "city";
  }

  function CoordsUrl(lat: string, lon: string, apiKey: string): string {
    ProviderUrl + "?lat=" + lat + "&lon=" + lon + "&appid=" + apiKey + "&units=metric&lang=ja"
  }

  function CityUrl(city: string, apiKey: string): string {
    ProviderUrl + "?q=" + city + "&appid=" + apiKey + "&units=metric&lang=ja"
  }

  /** The record returned without an API key. */
  function MockWeather(location: string, now: int): WeatherData {
    WeatherData(location, 20, "clear", 800, "clear sky", 60, 3.5, now)
  }

  /** What a lookup that misses the cache produces: mock data without an API key, else the
      provider's reply with its condition code bucketed and its temperature rounded. */
  function FreshWeather(mockLocation: string, apiKey: Option<string>, reply: ProviderReply, now: int)
    : (r: Result<WeatherData>)
    ensures !Present(apiKey) ==> r == Ok(MockWeather(mockLocation, now))
    ensures Present(apiKey) ==> (r.Err? <==> reply.NotOk?)
    ensures r.Err? ==> r.error == "Weather API request failed"
    ensures Present(apiKey) && r.Ok? ==>
              && r.value.condition == NormalizeWeatherCondition(r.value.conditionCode)
              && r.value.conditionCode == reply.code
              && r.value.location == reply.name
              && reply.temp - 0.5 < r.value.temperature as real <= reply.temp + 0.5
  {
    if !Present(apiKey) then Ok(MockWeather(mockLocation, now))
    else
      match reply
      case NotOk => Err("Weather API request failed")
      case Body(name, temp, code, description, humidity, windSpeed) =>
        Ok(WeatherData(name, JsRound(temp), NormalizeWeatherCondition(code), code, description, humidity, windSpeed, now))
  }

  /** A coordinate lookup that misses the cache: mock data for Tokyo without a key. */
  function CoordsFresh(lat: string, lon: string, apiKey: Option<string>, fetch: string -> ProviderReply, now: int)
    : Result<WeatherData>
  {
    FreshWeather("Tokyo", apiKey, fetch(CoordsUrl(lat, lon, OrElse(apiKey, ""))), now)
  }

  /** A city lookup that misses the cache: mock data for that city without a key. */
  function CityFresh(city: string, apiKey: Option<string>, fetch: string -> ProviderReply, now: int)
    : Result<WeatherData>
  {
    FreshWeather(city, apiKey, fetch(CityUrl(city, OrElse(apiKey, ""))), now)
  }

  /** The answer of a cache-first lookup: the stored record, else the fresh result. */
  function CachedOr(kv: map<string, WeatherData>, key: string, got: Result<WeatherData>): Result<WeatherData> {
    if key in kv then Ok(kv[key]) else got
  }

  /** The cache after a cache-first lookup: only a fresh success is stored. */
  function CacheAfter(kv: map<string, WeatherData>, key: string, got: Result<WeatherData>): map<string, WeatherData> {
    if key in kv || got.Err? then kv else kv[key := got.value]
  }

  /** After a successful lookup the next one under the same key is a hit: it answers the
      same record whatever the provider would say, and leaves the cache as it is. A failed
      lookup stores nothing, so the next one asks the provider again. */
  lemma LookupThenHit(kv: map<string, WeatherData>, key: string, got: Result<WeatherData>, later: Result<WeatherData>)
    ensures CachedOr(kv, key, got).Ok? ==>
              && CachedOr(CacheAfter(kv, key, got), key, later) == CachedOr(kv, key, got)
              && CacheAfter(CacheAfter(kv, key, got), key, later) == CacheAfter(kv, key, got)
    ensures CachedOr(kv, key, got).Err? ==> CacheAfter(kv, key, got) == kv && CachedOr(kv, key, later) == later
  {
  }

  /** A handler's answer. */
  datatype Reply =
    | Failure(status: int, message: string)
    | Current(weather: Option<WeatherData>, timeOfDay: string, hour: int, timestamp: int)
    | WeatherOnly(data: WeatherData)
    | TimeOfDayNow(timeOfDay: string, hour: int, timestamp: int)

  const MissingLocationCurrent: string := "Either coordinates (lat, lon) or city name is required"
  const MissingLocationWeather: string := "Either coordinates or city is required"

  /** GET /time-of-day. */
  function TimeOfDayRoute(hour: int, now: int): (reply: Reply)
    ensures reply.TimeOfDayNow? && reply.hour == hour
    ensures reply.timeOfDay == EnvironmentMapper.TimeOfDayName(EnvironmentMapper.GetTimeOfDay(hour))
  {
    TimeOfDayNow(GetTimeOfDay(hour), hour, now)
  }

  class WeatherRoutes {
    /** The KV namespace used as weather cache (expiry not modelled). */
    var kv: map<string, WeatherData>

    constructor()
      ensures kv == map[]
    {
      kv := map[];
    }

    /** getWeatherByCoords: the cached record if any, else a fresh one that is then cached.
        `lat` and `lon` are the printed numbers the handler parsed. */
    method GetWeatherByCoords(lat: string, lon: string, apiKey: Option<string>, fetch: string -> ProviderReply, now: int)
      returns (r: Result<WeatherData>)
      modifies this
      ensures CoordsKey(lat, lon) in old(kv) ==> r == Ok(old(kv)[CoordsKey(lat, lon)]) && kv == old(kv)
      ensures CoordsKey(lat, lon) !in old(kv) ==>
                r == FreshWeather("Tokyo", apiKey, fetch(CoordsUrl(lat, lon, OrElse(apiKey, ""))), now)
                && kv == (if r.Ok? then old(kv)[CoordsKey(lat, lon) := r.value] else old(kv))
      ensures var got := CoordsFresh(lat, lon, apiKey, fetch, now);
              r == CachedOr(old(kv), CoordsKey(lat, lon), got) && kv == CacheAfter(old(kv), CoordsKey(lat, lon), got)
    {
      var cacheKey := CoordsKey(lat, lon);
      if cacheKey in kv {
        return Ok(kv[cacheKey]);
      }
      r := FreshWeather("Tokyo", apiKey, fetch(CoordsUrl(lat, lon, OrElse(apiKey, ""))), now);
      if r.Ok? {
        kv := kv[cacheKey := r.value];
      }
    }

    /** getWeatherByCity: as by coordinates, under the city key; mock data is located in the
        requested city. */
    method GetWeatherByCity(city: string, apiKey: Option<string>, fetch: string -> ProviderReply, now: int)
      returns (r: Result<WeatherData>)
      modifies this
      ensures CityKey(city) in old(kv) ==> r == Ok(old(kv)[CityKey(city)]) && kv == old(kv)
      ensures CityKey(city) !in old(kv) ==>
                r == FreshWeather(city, apiKey, fetch(CityUrl(city, OrElse(apiKey, ""))), now)
                && kv == (if r.Ok? then old(kv)[CityKey(city) := r.value] else old(kv))
      ensures var got := CityFresh(city, apiKey, fetch, now);
              r == CachedOr(old(kv), CityKey(city), got) && kv == CacheAfter(old(kv), CityKey(city), got)
    {
      var cacheKey := CityKey(city);
      if cacheKey in kv {
        return Ok(kv[cacheKey]);
      }
      r := FreshWeather(city, apiKey, fetch(CityUrl(city, OrElse(apiKey, ""))), now);
      if r.Ok? {
        kv := kv[cacheKey := r.value];
      }
    }

    /** GET /current. It refuses only a request with none of lat, lon and city; coordinates
        are used only when both are given, read as numbers by `numberText` (standing for
        `String(parseFloat(s))`), else the city; a lone coordinate without a city answers
        with no weather at all. */
    method CurrentRoute(
      lat: Option<string>, lon: Option<string>, city: Option<string>, numberText: string -> string,
      apiKey: Option<string>, fetch: string -> ProviderReply, hour: int, now: int)
      returns (reply: Reply)
      modifies this
      ensures !Present(lat) && !Present(lon) && !Present(city) <==> reply == Failure(400, MissingLocationCurrent)
      ensures !Present(lat) && !Present(lon) && !Present(city) ==> kv == old(kv)
      ensures Present(lat) && Present(lon) ==>
                var la, lo := numberText(lat.value), numberText(lon.value);
                var got := CoordsFresh(la, lo, apiKey, fetch, now);
                var r := CachedOr(old(kv), CoordsKey(la, lo), got);
                && kv == CacheAfter(old(kv), CoordsKey(la, lo), got)
                && reply == (if r.Ok? then Current(Some(r.value), GetTimeOfDay(hour), hour, now) else Failure(400, r.error))
      ensures !(Present(lat) && Present(lon)) && Present(city) ==>
                var got := CityFresh(city.value, apiKey, fetch, now);
                var r := CachedOr(old(kv), CityKey(city.value), got);
                && kv == CacheAfter(old(kv), CityKey(city.value), got)
                && reply == (if r.Ok? then Current(Some(r.value), GetTimeOfDay(hour), hour, now) else Failure(400, r.error))
      ensures (Present(lat) || Present(lon)) && !(Present(lat) && Present(lon)) && !Present(city) ==>
                reply == Current(None, GetTimeOfDay(hour), hour, now) && kv == old(kv)
      ensures reply.Failure? ==> reply.status == 400
    {
      if !Present(lat) && !Present(lon) && !Present(city) {
        return Failure(400, MissingLocationCurrent);
      }
      var weatherData: Option<WeatherData> := None;
      if Present(lat) && Present(lon) {
        var r := GetWeatherByCoords(numberText(lat.value), numberText(lon.value), apiKey, fetch, now);
        if r.Err? {
          return Failure(400, r.error);
        }
        weatherData := Some(r.value);
      } else if Present(city) {
        var r := GetWeatherByCity(city.value, apiKey, fetch, now);
        if r.Err? {
          return Failure(400, r.error);
        }
        weatherData := Some(r.value);
      }
      reply := Current(weatherData, GetTimeOfDay(hour), hour, now);
    }

    /** GET /weather: coordinates when both are given (read as numbers as in /current),
        else the city, else a 400. */
    method WeatherRoute(
      lat: Option<string>, lon: Option<string>, city: Option<string>, numberText: string -> string,
      apiKey: Option<string>, fetch: string -> ProviderReply, now: int)
      returns (reply: Reply)
      modifies this
      ensures !(Present(lat) && Present(lon)) && !Present(city) <==> reply == Failure(400, MissingLocationWeather)
      ensures !(Present(lat) && Present(lon)) && !Present(city) ==> kv == old(kv)
      ensures Present(lat) && Present(lon) ==>
                var la, lo := numberText(lat.value), numberText(lon.value);
                var got := CoordsFresh(la, lo, apiKey, fetch, now);
                var r := CachedOr(old(kv), CoordsKey(la, lo), got);
                && kv == CacheAfter(old(kv), CoordsKey(la, lo), got)
                && reply == (if r.Ok? then WeatherOnly(r.value) else Failure(400, r.error))
      ensures !(Present(lat) && Present(lon)) && Present(city) ==>
                var got := CityFresh(city.value, apiKey, fetch, now);
                var r := CachedOr(old(kv), CityKey(city.value), got);
                && kv == CacheAfter(old(kv), CityKey(city.value), got)
                && reply == (if r.Ok? then WeatherOnly(r.value) else Failure(400, r.error))
      ensures reply.Failure? ==> reply.status == 400
      ensures reply.Failure? && reply.message != MissingLocationWeather ==> reply.message == "Weather API request failed"
    {
      var r: Result<WeatherData>;
      if Present(lat) && Present(lon) {
        r := GetWeatherByCoords(numberText(lat.value), numberText(lon.value), apiKey, fetch, now);
      } else if Present(city) {
        r := GetWeatherByCity(city.value, apiKey, fetch, now);
      } else {
        return Failure(400, MissingLocationWeather);
      }
      if r.Err? {
        return Failure(400, r.error);
      }
      reply := WeatherOnly(r.value);
    }
  }
}
