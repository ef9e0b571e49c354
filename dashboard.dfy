/**
 * The component's state and the handlers that change it: the location
 * search, the choice of a candidate, the unit toggle, the effect that
 * refreshes on a location or unit change, and `fetchAllWeatherData`.
 *
 * `fetchAllWeatherData` is split at its `await`: `BeginRefresh` is what runs
 * before the first fetch (loading on, error cleared) and `CompleteRefresh` is
 * what runs once the fetches have settled, taking their outcomes as inputs.
 * No setter of the data runs before both bodies have been read. A forecast
 * body without its `hourly` (or `daily`) object makes the normaliser throw
 * after `setCurrentWeather` (and `setHourlyForecast`) were already called,
 * so those earlier fields do change before the error is shown.
 */
module Dashboard {
  import opened JsValues
  import opened Payloads
  import opened Series
  import opened Locations
  import opened UnitPolicy

  /** The one message every failed refresh shows. */
  const LoadFailedMessage := "Failed to load weather data. Please try again."

  /** The forecast call delivered a body: no network error, `ok`, and parsed. */
  predicate ForecastDelivered(forecast: Fetched<ForecastBody>) {
    forecast.Response? && forecast.ok && forecast.parsed.Json?
  }

  /** The air-quality call delivered a body. Its `ok` flag is never looked at. */
  predicate AirDelivered(air: Fetched<AirQualityBody>) {
    air.Response? && air.parsed.Json?
  }

  /**
   * The length the normalisers need: the hourly and daily objects, where the
   * forecast body has them, carry at least 24 and 7 entries.
   */
  predicate WellFormed(forecast: Fetched<ForecastBody>) {
    forecast.Response? && forecast.parsed.Json? ==>
      && (forecast.parsed.body.hourly.Some? ==> forecast.parsed.body.hourly.value.Covers(HourCount))
      && (forecast.parsed.body.daily.Some? ==> forecast.parsed.body.daily.value.Covers(DayCount))
  }

  /** How far a refresh gets once the fetches have settled. */
  datatype RefreshOutcome = FetchFailed | MissingHourly | MissingDaily | Complete

  function Outcome(forecast: Fetched<ForecastBody>, air: Fetched<AirQualityBody>): RefreshOutcome {
    if !ForecastDelivered(forecast) || !AirDelivered(air) then FetchFailed
    else if forecast.parsed.body.hourly.None? then MissingHourly
    else if forecast.parsed.body.daily.None? then MissingDaily
    else Complete
  }

  /** A failure of either call, a forecast that is not `ok`, or an unreadable body stops the refresh. */
  lemma FetchFailuresAreFatal(forecast: Fetched<ForecastBody>, air: Fetched<AirQualityBody>)
    ensures forecast.NetworkError? ==> Outcome(forecast, air) == FetchFailed
    ensures forecast.Response? && !forecast.ok ==> Outcome(forecast, air) == FetchFailed
    ensures air.NetworkError? || (air.Response? && air.parsed.Malformed?) ==> Outcome(forecast, air) == FetchFailed
    ensures Outcome(forecast, air) == Complete <==>
              && ForecastDelivered(forecast) && AirDelivered(air)
              && forecast.parsed.body.hourly.Some? && forecast.parsed.body.daily.Some?
  {
  }

  /** An air-quality response that is not `ok` is used like one that is. */
  lemma AirStatusIgnored(forecast: Fetched<ForecastBody>, body: Parsed<AirQualityBody>)
    ensures Outcome(forecast, Response(false, body)) == Outcome(forecast, Response(true, body))
  {
  }

  /** The query a refresh sends to the forecast endpoint. */
  datatype ForecastQuery = ForecastQuery(latitude: real, longitude: real, units: RequestUnits)

  /** The data fields a successful refresh replaces. */
  datatype Snapshot = Snapshot(
    current: Option<Current>,
    hourly: seq<HourlyPoint>,
    daily: seq<DailyPoint>,
    airQuality: Option<AirQuality>,
    lastUpdate: int)

  class WeatherDashboard {
    var location: Location
    var searchQuery: string
    var suggestions: seq<Place>
    var currentWeather: Option<Current>
    var hourlyForecast: seq<HourlyPoint>
    var dailyForecast: seq<DailyPoint>
    var airQuality: Option<AirQuality>
    var loading: bool
    var error: string
    var unit: string
    var lastUpdate: int    // the clock's reading, supplied by the caller

    /**
     * The series are either not loaded yet or complete; the error is empty
     * or the fixed message; while loading there is no error shown.
     */
    ghost predicate Valid()
      reads this
    {
      && (|hourlyForecast| == 0 || |hourlyForecast| == HourCount)
      && (|dailyForecast| == 0 || |dailyForecast| == DayCount)
      && (error == "" || error == LoadFailedMessage)
      && (loading ==> error == "")
    }

    ghost function Data(): Snapshot
      reads this
    {
      Snapshot(currentWeather, hourlyForecast, dailyForecast, airQuality, lastUpdate)
    }

    /** The initial `useState` values; `now` is the clock at mount. */
    constructor(now: int)
      ensures Valid()
      ensures location == DefaultLocation && unit == DefaultUnit
      ensures searchQuery == "" && suggestions == []
      ensures Data() == Snapshot(None, [], [], None, now)
      ensures !loading && error == ""
    {
      location := DefaultLocation;
      searchQuery := "";
      suggestions := [];
      currentWeather := None;
      hourlyForecast := [];
      dailyForecast := [];
      airQuality := None;
      loading := false;
      error := "";
      unit := DefaultUnit;
      lastUpdate := now;
    }

    /**
     * `searchLocations`: a query shorter than 2 characters clears the
     * suggestions and sends nothing; otherwise one request is sent and its
     * results (or [] when the body has none) become the suggestions, while a
     * failed request leaves them as they were.
     */
    method SearchLocations(query: string, response: SearchResponse) returns (requested: bool)
      requires Valid()
      modifies this`suggestions
      ensures Valid()
      ensures requested <==> |query| >= MinQueryLength
      ensures !requested ==> suggestions == []
      ensures requested && response.SearchFailed? ==> suggestions == old(suggestions)
      ensures requested && response.SearchBody? ==> suggestions == response.results.GetOr([])
    {
      if |query| < MinQueryLength {
        suggestions := [];
        return false;
      }
      requested := true;
      match response
      case SearchFailed =>
      case SearchBody(results) =>
        suggestions := results.GetOr([]);
    }

    /** The search box's change handler: store the text, then search for it. */
    method QueryChanged(text: string, response: SearchResponse) returns (requested: bool)
      requires Valid()
      modifies this`searchQuery, this`suggestions
      ensures Valid()
      ensures searchQuery == text
      ensures requested <==> |text| >= MinQueryLength
      ensures !requested ==> suggestions == []
      ensures requested && response.SearchFailed? ==> suggestions == old(suggestions)
      ensures requested && response.SearchBody? ==> suggestions == response.results.GetOr([])
    {
      searchQuery := text;
      requested := SearchLocations(text, response);
    }

    /**
     * `selectLocation`: the candidate's coordinates and name become the
     * location, and the query and the suggestions are cleared.
     */
    method SelectLocation(result: Place)
      requires Valid()
      modifies this`location, this`searchQuery, this`suggestions
      ensures Valid()
      ensures location == Location(result.latitude, result.longitude, result.name)
      ensures searchQuery == "" && suggestions == []
    {
      location := Location(result.latitude, result.longitude, result.name);
      searchQuery := "";
      suggestions := [];
    }

    /** The unit toggle's handlers (`setUnit('celsius')`, `setUnit('fahrenheit')`). */
    method SetUnit(u: string)
      requires Valid()
      modifies this`unit
      ensures Valid() && unit == u
    {
      unit := u;
    }

    /** The query `fetchAllWeatherData` sends for the current location and unit. */
    function ForecastQueryNow(): (q: ForecastQuery)
      reads this
      ensures q.latitude == location.lat && q.longitude == location.lon
      ensures q.units.precipitation == "mm"
      ensures q.units.temperature == Celsius <==> unit == "celsius"
      ensures q.units.windSpeed == Kmh <==> unit == "celsius"
    {
      ForecastQuery(location.lat, location.lon, UnitsFor(unit))
    }

    /** The start of `fetchAllWeatherData`: loading on, error cleared. */
    method BeginRefresh()
      requires Valid()
      modifies this`loading, this`error
      ensures Valid()
      ensures loading && error == ""
    {
      loading := true;
      error := "";
    }

    /**
     * The data fields after a refresh whose fetches settled as `forecast`
     * and `air`: untouched when a fetch failed; the current conditions alone
     * (then also the hourly series) when the hourly (daily) object is
     * missing; all five replaced, with `lastUpdate` set to `now`, otherwise.
     */
    twostate predicate Refreshed(forecast: Fetched<ForecastBody>, air: Fetched<AirQualityBody>, now: int)
      requires WellFormed(forecast)
      reads this
    {
      match Outcome(forecast, air)
      case FetchFailed => Data() == old(Data())
      case MissingHourly =>
        Data() == old(Data()).(current := forecast.parsed.body.current)
      case MissingDaily =>
        Data() == old(Data()).(current := forecast.parsed.body.current,
                               hourly := HourlySeries(forecast.parsed.body.hourly.value))
      case Complete =>
        Data() == Snapshot(forecast.parsed.body.current,
                           HourlySeries(forecast.parsed.body.hourly.value),
                           DailySeries(forecast.parsed.body.daily.value),
                           air.parsed.body.current,
                           now)
    }

    /**
     * The rest of `fetchAllWeatherData`, once the forecast fetch and then the
     * air-quality fetch have settled. Loading always ends; the fixed message
     * is shown on any failure, and the error is left alone on success.
     */
    method CompleteRefresh(forecast: Fetched<ForecastBody>, air: Fetched<AirQualityBody>, now: int)
      requires Valid() && WellFormed(forecast)
      modifies this`currentWeather, this`hourlyForecast, this`dailyForecast, this`airQuality,
               this`lastUpdate, this`loading, this`error
      ensures Valid()
      ensures !loading
      ensures error == if Outcome(forecast, air) == Complete then old(error) else LoadFailedMessage
      ensures Refreshed(forecast, air, now)
    {
      if forecast.NetworkError? || !forecast.ok || forecast.parsed.Malformed? {
        error := LoadFailedMessage;
        loading := false;
        return;
      }
      var weatherData := forecast.parsed.body;
      if air.NetworkError? || air.parsed.Malformed? {
        error := LoadFailedMessage;
        loading := false;
        return;
      }
      var airQualityData := air.parsed.body;

      currentWeather := weatherData.current;
      if weatherData.hourly.None? {
        error := LoadFailedMessage;
        loading := false;
        return;
      }
      hourlyForecast := ProcessHourlyData(weatherData.hourly.value);
      if weatherData.daily.None? {
        error := LoadFailedMessage;
        loading := false;
        return;
      }
      dailyForecast := ProcessDailyData(weatherData.daily.value);
      airQuality := airQualityData.current;
      lastUpdate := now;
      loading := false;
    }

    /**
     * `fetchAllWeatherData` from start to end: the query it sends, and the
     * state once it is done. A successful refresh ends with no error.
     */
    method FetchAllWeatherData(forecast: Fetched<ForecastBody>, air: Fetched<AirQualityBody>, now: int)
      returns (query: ForecastQuery)
      requires Valid() && WellFormed(forecast)
      modifies this`currentWeather, this`hourlyForecast, this`dailyForecast, this`airQuality,
               this`lastUpdate, this`loading, this`error
      ensures Valid()
      ensures query == ForecastQueryNow()
      ensures !loading
      ensures error == if Outcome(forecast, air) == Complete then "" else LoadFailedMessage
      ensures Refreshed(forecast, air, now)
    {
      query := ForecastQueryNow();
      BeginRefresh();
      CompleteRefresh(forecast, air, now);
    }

    /**
     * The effect that runs after a change of location or unit: it refreshes
     * only when both coordinates are non-zero, and otherwise changes nothing.
     */
    method LocationOrUnitChanged(forecast: Fetched<ForecastBody>, air: Fetched<AirQualityBody>, now: int)
      returns (fetched: bool)
      requires Valid() && WellFormed(forecast)
      modifies this`currentWeather, this`hourlyForecast, this`dailyForecast, this`airQuality,
               this`lastUpdate, this`loading, this`error
      ensures Valid()
      ensures fetched <==> location.lat != 0.0 && location.lon != 0.0
      ensures !fetched ==> Data() == old(Data()) && loading == old(loading) && error == old(error)
      ensures fetched ==> !loading && Refreshed(forecast, air, now)
      ensures fetched ==> error == if Outcome(forecast, air) == Complete then "" else LoadFailedMessage
    {
      fetched := ShouldFetch(location);
      if fetched {
        var _ := FetchAllWeatherData(forecast, air, now);
      }
    }
  }
}
