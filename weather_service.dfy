/**
 * server/src/service/weatherService.ts: the singleton weather service. It resolves a city
 * to coordinates, asks for the forecast at those coordinates, and reduces the answer to
 * the current reading followed by the first four noon readings.
 */
module WeatherService {

  import opened Wrappers
  import opened Calendar
  import opened Upstream
  import opened Selection

  const BaseURL: string := "https://api.openweathermap.org/data/2.5"
  /** `date.getHours() === 12`. */
  const NoonHour: int := 12
  /** `index < 40`: only the first forty readings are looked at. */
  const ScanLimit: nat := 40
  /** `.slice(0, 4)`. */
  const MaxDaily: nat := 4

  /** The service's `Weather` record. */
  datatype Weather = Weather(date: Date, temp: int, humidity: int, wind: int, icon: string, description: string)

  datatype ServiceError =
    | LocationFetchFailed   // the geocoding response was not ok
    | NoLocation            // `locationData[0]` is undefined: its destructuring throws
    | WeatherFetchFailed    // the forecast response was not ok
    | NoReadings            // `response.list[0]` is undefined

  function Min(a: int, b: int): int
  {
    if a < b then a else b
  }

  /** `destructureLocationData`: the lat, lon and name of the first geocoding match. */
  function DestructureLocationData(locationData: seq<GeoMatch>): (r: Result<Coordinates, ServiceError>)
    ensures |locationData| == 0 ==> r == Failure(NoLocation)
    ensures |locationData| > 0 ==>
              (r.Success? && r.value.lat == locationData[0].lat
               && r.value.lon == locationData[0].lon && r.value.name == locationData[0].name)
  {
    if |locationData| == 0 then Failure(NoLocation)
    else Success(Coordinates(locationData[0].lat, locationData[0].lon, locationData[0].name))
  }

  /** Only the first match is used: later matches never change the coordinates. */
  lemma OnlyFirstMatchUsed(first: GeoMatch, rest: seq<GeoMatch>)
    ensures DestructureLocationData([first] + rest) == DestructureLocationData([first])
  {
  }

  /** `buildWeatherQuery(coordinates)`: a URL under the service's base URL, longer than it. */
  function BuildWeatherQuery(baseURL: string, apiKey: string, c: Coordinates): (q: string)
    ensures |baseURL| < |q| && q[..|baseURL|] == baseURL
  {
    baseURL + "/forecast?lat=" + c.lat + "&lon=" + c.lon + "&appid=" + apiKey + "&units=imperial"
  }

  /** The position of the first `c` in `s`. */
  function IndexOf(s: string, c: char): (i: nat)
    requires c in s
    ensures i < |s| && s[i] == c && c !in s[..i]
  {
    if s[0] == c then 0
    else
      assert c in s[1..];
      var j := IndexOf(s[1..], c);
      assert s[..j + 1] == [s[0]] + s[1..][..j];
      1 + j
  }

  /** The pieces of `s` between the occurrences of `c`. */
  function Split(s: string, c: char): seq<string>
    decreases |s|
  {
    if c in s then
      var i := IndexOf(s, c);
      [s[..i]] + Split(s[i + 1..], c)
    else [s]
  }

  /** A query parameter `key=value`, split at its first `=`. */
  function Param(pair: string): (string, string)
  {
    if '=' in pair then
      var i := IndexOf(pair, '=');
      (pair[..i], pair[i + 1..])
    else (pair, "")
  }

  /** The part of a URL before its first `?`. */
  function QueryPath(url: string): string
  {
    if '?' in url then url[..IndexOf(url, '?')] else url
  }

  /** The key/value pairs of a URL's query string, in order. */
  function QueryParams(url: string): seq<(string, string)>
  {
    if '?' in url then
      ParamsOf(Split(url[IndexOf(url, '?') + 1..], '&'))
    else []
  }

  function ParamsOf(parts: seq<string>): seq<(string, string)>
  {
    seq(|parts|, k requires 0 <= k < |parts| => Param(parts[k]))
  }

  lemma IndexOfAfter(a: string, c: char, b: string)
    requires c !in a
    ensures IndexOf(a + [c] + b, c) == |a|
  {
    var s := a + [c] + b;
    var i := IndexOf(s, c);
    assert s[|a|] == c;
  }

  lemma SplitAt(a: string, c: char, b: string)
    requires c !in a
    ensures Split(a + [c] + b, c) == [a] + Split(b, c)
  {
    var s := a + [c] + b;
    IndexOfAfter(a, c, b);
    assert s[..|a|] == a;
    assert s[|a| + 1..] == b;
  }

  /** A parameter whose key and `=` come first. */
  lemma ParamAfter(keyEq: string, value: string)
    requires |keyEq| > 0 && keyEq[|keyEq| - 1] == '=' && '=' !in keyEq[..|keyEq| - 1]
    ensures Param(keyEq + value) == (keyEq[..|keyEq| - 1], value)
  {
    var key := keyEq[..|keyEq| - 1];
    assert keyEq + value == key + ['='] + value;
    IndexOfAfter(key, '=', value);
    var s := key + ['='] + value;
    assert s[..|key|] == key;
    assert s[|key| + 1..] == value;
  }

  /** A URL read back at its first `?`. */
  lemma QueryAt(path: string, q: string)
    requires '?' !in path
    ensures QueryPath(path + ['?'] + q) == path
    ensures QueryParams(path + ['?'] + q) == ParamsOf(Split(q, '&'))
  {
    var url := path + ['?'] + q;
    IndexOfAfter(path, '?', q);
    assert url[..|path|] == path;
    assert url[|path| + 1..] == q;
  }

  lemma SplitFour(p1: string, p2: string, p3: string, p4: string)
    requires '&' !in p1 && '&' !in p2 && '&' !in p3 && '&' !in p4
    ensures Split(p1 + ['&'] + (p2 + ['&'] + (p3 + ['&'] + p4)), '&') == [p1, p2, p3, p4]
  {
    SplitAt(p1, '&', p2 + ['&'] + (p3 + ['&'] + p4));
    SplitAt(p2, '&', p3 + ['&'] + p4);
    SplitAt(p3, '&', p4);
  }

  lemma ForecastParams(lat: string, lon: string, apiKey: string)
    ensures ParamsOf(["lat=" + lat, "lon=" + lon, "appid=" + apiKey, "units=" + "imperial"])
            == [("lat", lat), ("lon", lon), ("appid", apiKey), ("units", "imperial")]
  {
    ParamAfter("lat=", lat);
    ParamAfter("lon=", lon);
    ParamAfter("appid=", apiKey);
    ParamAfter("units=", "imperial");
    assert "lat="[..3] == "lat" && "lon="[..3] == "lon";
    assert "appid="[..5] == "appid" && "units="[..5] == "units";
    var parts := ["lat=" + lat, "lon=" + lon, "appid=" + apiKey, "units=" + "imperial"];
    assert ParamsOf(parts) == [Param(parts[0]), Param(parts[1]), Param(parts[2]), Param(parts[3])];
  }

  /** The query string of the forecast URL, split into its four parameters. */
  lemma WeatherQueryShape(baseURL: string, apiKey: string, c: Coordinates)
    ensures BuildWeatherQuery(baseURL, apiKey, c)
            == (baseURL + "/forecast") + ['?']
               + (("lat=" + c.lat) + ['&'] + (("lon=" + c.lon) + ['&'] + (("appid=" + apiKey) + ['&'] + ("units=" + "imperial"))))
  {
  }

  /** Where the separators of the forecast URL are absent. */
  lemma NoSeparators(baseURL: string, apiKey: string, c: Coordinates)
    requires '?' !in baseURL
    requires '&' !in c.lat && '&' !in c.lon && '&' !in apiKey
    ensures '?' !in baseURL + "/forecast"
    ensures '&' !in "lat=" + c.lat && '&' !in "lon=" + c.lon && '&' !in "appid=" + apiKey
    ensures '&' !in "units=" + "imperial"
  {
  }

  /**
   * The forecast URL reads back as the forecast endpoint under `baseURL` with exactly the
   * parameters lat, lon, appid and units=imperial, in that order, provided no value holds
   * an `&` and the base URL has no `?`.
   */
  lemma WeatherQueryRoundTrip(baseURL: string, apiKey: string, c: Coordinates)
    requires '?' !in baseURL
    requires '&' !in c.lat && '&' !in c.lon && '&' !in apiKey
    ensures QueryPath(BuildWeatherQuery(baseURL, apiKey, c)) == baseURL + "/forecast"
    ensures QueryParams(BuildWeatherQuery(baseURL, apiKey, c))
            == [("lat", c.lat), ("lon", c.lon), ("appid", apiKey), ("units", "imperial")]
  {
    var path := baseURL + "/forecast";
    var p1, p2, p3, p4 := "lat=" + c.lat, "lon=" + c.lon, "appid=" + apiKey, "units=" + "imperial";
    WeatherQueryShape(baseURL, apiKey, c);
    NoSeparators(baseURL, apiKey, c);
    QueryAt(path, p1 + ['&'] + (p2 + ['&'] + (p3 + ['&'] + p4)));
    SplitFour(p1, p2, p3, p4);
    ForecastParams(c.lat, c.lon, apiKey);
  }

  /** The mapping of a reading to a `Weather` record, shared by the current reading and the daily ones. */
  function ToWeather(pt: RawPoint, zone: Zone): (w: Weather)
    ensures w.temp * Scale - Scale / 2 <= pt.temp < w.temp * Scale + Scale / 2
    ensures w.wind * Scale - Scale / 2 <= pt.windSpeed < w.wind * Scale + Scale / 2
    ensures w.humidity == pt.humidity && w.icon == pt.icon && w.description == pt.description
    ensures w.date == LocalDate(zone, pt.dt)
  {
    Weather(LocalDate(zone, pt.dt), Round(pt.temp), pt.humidity, Round(pt.windSpeed), pt.icon, pt.description)
  }

  /** `parseCurrentWeather(response)`: the first reading of `list`, rounded. */
  function ParseCurrentWeather(list: seq<RawPoint>, zone: Zone): (r: Result<Weather, ServiceError>)
    ensures |list| == 0 ==> r == Failure(NoReadings)
    ensures |list| > 0 ==> r == Success(ToWeather(list[0], zone))
  {
    if |list| == 0 then Failure(NoReadings) else Success(ToWeather(list[0], zone))
  }

  predicate IsNoon(zone: Zone, pt: RawPoint)
  {
    HourOf(zone, pt.dt) == NoonHour
  }

  function Noon(zone: Zone): RawPoint -> bool
  {
    pt => IsNoon(zone, pt)
  }

  /** The positions the filter keeps: noon readings at an index below 40. */
  function NoonPositions(data: seq<RawPoint>, zone: Zone): seq<nat>
  {
    Matches(Noon(zone), data, Min(|data|, ScanLimit))
  }

  /** The positions behind `dailyData`. */
  function DailySources(data: seq<RawPoint>, zone: Zone): (src: seq<nat>)
    ensures forall k :: 0 <= k < |src| ==> src[k] < |data|
  {
    Take(NoonPositions(data, zone), MaxDaily)
  }

  /** `dailyData`: `weatherData.filter(noon and index < 40).slice(0, 4)`. */
  function DailyData(data: seq<RawPoint>, zone: Zone): seq<RawPoint>
  {
    Take(Pick(data, NoonPositions(data, zone)), MaxDaily)
  }

  /** The forecast array for the readings `daily`. */
  function Forecast(current: Weather, daily: seq<RawPoint>, zone: Zone): seq<Weather>
  {
    [current] + seq(|daily|, k requires 0 <= k < |daily| => ToWeather(daily[k], zone))
  }

  /** `buildForecastArray(currentWeather, weatherData)`. */
  method BuildForecastArray(currentWeather: Weather, weatherData: seq<RawPoint>, zone: Zone)
    returns (forecast: seq<Weather>)
    ensures forecast == Forecast(currentWeather, DailyData(weatherData, zone), zone)
  {
    forecast := [currentWeather];
    var dailyData := DailyData(weatherData, zone);
    var i := 0;
    while i < |dailyData|
      invariant 0 <= i <= |dailyData|
      invariant forecast == Forecast(currentWeather, dailyData[..i], zone)
    {
      assert dailyData[..i + 1] == dailyData[..i] + [dailyData[i]];
      forecast := forecast + [ToWeather(dailyData[i], zone)];
      i := i + 1;
    }
    assert dailyData[..i] == dailyData;
  }

  /** The daily readings are the readings at the daily positions. */
  lemma DailyDataAtSources(data: seq<RawPoint>, zone: Zone)
    ensures DailyData(data, zone) == Pick(data, DailySources(data, zone))
  {
    var m := NoonPositions(data, zone);
    if |m| > MaxDaily {
      assert Pick(data, m)[..MaxDaily] == Pick(data, m[..MaxDaily]);
    }
  }

  /** The result starts with `currentWeather` and holds at most four more entries, five in all. */
  lemma ForecastLength(currentWeather: Weather, data: seq<RawPoint>, zone: Zone)
    ensures var r := Forecast(currentWeather, DailyData(data, zone), zone);
            var count := |NoonPositions(data, zone)|;
            && r[0] == currentWeather
            && |r| == 1 + (if count < MaxDaily then count else MaxDaily)
            && |r| <= MaxDaily + 1
  {
    DailyDataAtSources(data, zone);
  }

  /**
   * Entry k (k >= 1) is the k-th noon reading among the first forty: its index is below 40,
   * its hour is 12, exactly k - 1 noon readings precede it, and it is mapped like the
   * current reading.
   */
  lemma ForecastEntry(currentWeather: Weather, data: seq<RawPoint>, zone: Zone, k: nat)
    requires 1 <= k < |Forecast(currentWeather, DailyData(data, zone), zone)|
    ensures var i := DailySources(data, zone)[k - 1];
            && i < ScanLimit && i < |data|
            && HourOf(zone, data[i].dt) == NoonHour
            && |Matches(Noon(zone), data, i)| == k - 1
            && Forecast(currentWeather, DailyData(data, zone), zone)[k] == ToWeather(data[i], zone)
  {
    DailyDataAtSources(data, zone);
    var n := Min(|data|, ScanLimit);
    MatchesBefore(Noon(zone), data, n, k - 1);
  }

  /** The entries keep the order of their readings in the input. */
  lemma ForecastInOrder(data: seq<RawPoint>, zone: Zone)
    ensures Increasing(DailySources(data, zone))
  {
    MatchesIncreasing(Noon(zone), data, Min(|data|, ScanLimit));
  }

  /**
   * Each of the first four noon readings at an index below 40 is an entry, whatever its
   * date: there is no exclusion of the current day.
   */
  lemma ForecastFirstFour(currentWeather: Weather, data: seq<RawPoint>, zone: Zone, i: nat)
    requires i < |data| && i < ScanLimit && IsNoon(zone, data[i])
    requires |Matches(Noon(zone), data, i)| < MaxDaily
    ensures var k := 1 + |Matches(Noon(zone), data, i)|;
            var r := Forecast(currentWeather, DailyData(data, zone), zone);
            k < |r| && r[k] == ToWeather(data[i], zone)
  {
    DailyDataAtSources(data, zone);
    var n := Min(|data|, ScanLimit);
    MatchesRank(Noon(zone), data, n, i);
    var c := |Matches(Noon(zone), data, i)|;
    var src := DailySources(data, zone);
    assert c < |src| && src[c] == i;
  }

  /**
   * A noon reading on the same local day as the clock `now`, first in the list, is the
   * first daily entry. The model has no clock input, so `now` only names the case the
   * filter fails to skip: the conclusion holds for any noon `data[0]`.
   */
  lemma SameDayNoonSelected(currentWeather: Weather, data: seq<RawPoint>, zone: Zone, now: int)
    requires |data| > 0 && IsNoon(zone, data[0])
    requires DayNumber(zone, data[0].dt) == DayNumber(zone, now)
    ensures var r := Forecast(currentWeather, DailyData(data, zone), zone);
            |r| >= 2 && r[1] == ToWeather(data[0], zone)
  {
    ForecastFirstFour(currentWeather, data, zone, 0);
  }

  /** In a series whose samples lie at least an hour apart, the entries fall on strictly later local days. */
  lemma ForecastDistinctDays(data: seq<RawPoint>, zone: Zone, j: nat, k: nat)
    requires Spaced(data)
    requires j < k < |DailySources(data, zone)|
    ensures var src := DailySources(data, zone);
            DayNumber(zone, data[src[j]].dt) < DayNumber(zone, data[src[k]].dt)
  {
    var src := DailySources(data, zone);
    ForecastInOrder(data, zone);
    MatchesIncreasing(Noon(zone), data, Min(|data|, ScanLimit));
    SpacedApart(data, src[j], src[k]);
    SameHourLaterDay(zone, data[src[j]].dt, data[src[k]].dt);
  }

  /** In a series whose samples lie at least an hour apart, no two daily entries carry the same date. */
  lemma ForecastDistinctDates(currentWeather: Weather, data: seq<RawPoint>, zone: Zone, j: nat, k: nat)
    requires Spaced(data)
    requires 1 <= j < k < |Forecast(currentWeather, DailyData(data, zone), zone)|
    ensures Forecast(currentWeather, DailyData(data, zone), zone)[j].date
            != Forecast(currentWeather, DailyData(data, zone), zone)[k].date
  {
    var src := DailySources(data, zone);
    DailyDataAtSources(data, zone);
    ForecastEntry(currentWeather, data, zone, j);
    ForecastEntry(currentWeather, data, zone, k);
    ForecastDistinctDays(data, zone, j - 1, k - 1);
    LocalDatesDiffer(zone, data[src[j - 1]].dt, data[src[k - 1]].dt);
  }

  /**
   * `getWeatherForCity(city)` as a function of the two upstream answers: `fetchLocation`
   * maps the query to the geocoding answer and `fetchWeather` maps a URL to the forecast
   * list, each None when the response is not ok.
   */
  function WeatherForCity(
    baseURL: string, apiKey: string, city: string,
    fetchLocation: string -> Option<seq<GeoMatch>>,
    fetchWeather: string -> Option<seq<RawPoint>>,
    zone: Zone): Result<seq<Weather>, ServiceError>
  {
    match fetchLocation(city)
    case None => Failure(LocationFetchFailed)
    case Some(locationData) =>
      match DestructureLocationData(locationData)
      case Failure(e) => Failure(e)
      case Success(coordinates) =>
        match fetchWeather(BuildWeatherQuery(baseURL, apiKey, coordinates))
        case None => Failure(WeatherFetchFailed)
        case Some(list) =>
          match ParseCurrentWeather(list, zone)
          case Failure(e) => Failure(e)
          case Success(current) => Success(Forecast(current, DailyData(list, zone), zone))
  }

  /**
   * When the city resolves and its forecast arrives, the result is the forecast of the
   * first geocoding match's coordinates, led by that forecast's first reading.
   */
  lemma WeatherForCityFound(
    baseURL: string, apiKey: string, city: string,
    fetchLocation: string -> Option<seq<GeoMatch>>,
    fetchWeather: string -> Option<seq<RawPoint>>,
    zone: Zone, first: GeoMatch, list: seq<RawPoint>)
    requires fetchLocation(city).Some? && |fetchLocation(city).value| > 0
    requires first == fetchLocation(city).value[0]
    requires fetchWeather(BuildWeatherQuery(baseURL, apiKey, Coordinates(first.lat, first.lon, first.name))) == Some(list)
    requires |list| > 0
    ensures var r := WeatherForCity(baseURL, apiKey, city, fetchLocation, fetchWeather, zone);
            && r.Success?
            && r.value == Forecast(ToWeather(list[0], zone), DailyData(list, zone), zone)
            && r.value[0] == ToWeather(list[0], zone)
            && |r.value| <= MaxDaily + 1
  {
    ForecastLength(ToWeather(list[0], zone), list, zone);
  }

  /** Which failure each unsuccessful step produces. */
  lemma WeatherForCityFailures(
    baseURL: string, apiKey: string, city: string,
    fetchLocation: string -> Option<seq<GeoMatch>>,
    fetchWeather: string -> Option<seq<RawPoint>>,
    zone: Zone)
    ensures var r := WeatherForCity(baseURL, apiKey, city, fetchLocation, fetchWeather, zone);
            && (fetchLocation(city).None? ==> r == Failure(LocationFetchFailed))
            && (fetchLocation(city) == Some([]) ==> r == Failure(NoLocation))
            && (fetchLocation(city).Some? && |fetchLocation(city).value| > 0 ==>
                  var m := fetchLocation(city).value[0];
                  var answer := fetchWeather(BuildWeatherQuery(baseURL, apiKey, Coordinates(m.lat, m.lon, m.name)));
                  && (answer.None? ==> r == Failure(WeatherFetchFailed))
                  && (answer == Some([]) ==> r == Failure(NoReadings)))
  {
  }

  /** The exported singleton: its `city` field is written by each lookup. */
  class Service {
    const baseURL: string
    const apiKey: string
    var city: string

    /** `new WeatherService()` with `process.env.WEATHER_API_KEY` as `envKey`. */
    constructor (envKey: Option<string>)
      ensures baseURL == BaseURL
      ensures apiKey == if envKey.Some? then envKey.value else ""
      ensures city == ""
    {
      baseURL := BaseURL;
      apiKey := if envKey.Some? then envKey.value else "";
      city := "";
    }

    /** `getWeatherForCity(city)`: records the city, then runs the lookup for it. */
    method GetWeatherForCity(
      city: string,
      fetchLocation: string -> Option<seq<GeoMatch>>,
      fetchWeather: string -> Option<seq<RawPoint>>,
      zone: Zone) returns (r: Result<seq<Weather>, ServiceError>)
      modifies this
      ensures this.city == city
      ensures r == WeatherForCity(baseURL, apiKey, city, fetchLocation, fetchWeather, zone)
    {
      this.city := city;
      var locationData := fetchLocation(this.city);
      if locationData.None? {
        return Failure(LocationFetchFailed);
      }
      var coordinates := DestructureLocationData(locationData.value);
      if coordinates.Failure? {
        return Failure(coordinates.error);
      }
      var weatherData := fetchWeather(BuildWeatherQuery(baseURL, apiKey, coordinates.value));
      if weatherData.None? {
        return Failure(WeatherFetchFailed);
      }
      var currentWeather := ParseCurrentWeather(weatherData.value, zone);
      if currentWeather.Failure? {
        return Failure(currentWeather.error);
      }
      var forecast := BuildForecastArray(currentWeather.value, weatherData.value, zone);
      return Success(forecast);
    }
  }
}
