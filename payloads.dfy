/**
 * The shapes of the provider responses the dashboard reads, and the abstract
 * outcome of a `fetch` call. Only the keys the dashboard reads are kept.
 * Number fields the provider may leave out are `Option<real>`; weather codes
 * are integers.
 */
module Payloads {
  import opened JsValues

  /** The forecast response's `current` object. */
  datatype Current = Current(
    isDay: int,                  // `is_day`, 1 by day and 0 by night
    weatherCode: int,            // `weather_code`
    temperature: Option<real>,
    apparentTemperature: Option<real>,
    relativeHumidity: Option<real>,
    precipitation: Option<real>,
    cloudCover: Option<real>,
    pressureMsl: Option<real>,
    windSpeed: Option<real>,
    windDirection: Option<real>)

  /** The air-quality response's `current` object; every reading may be absent. */
  datatype AirQuality = AirQuality(
    europeanAqi: Option<real>,
    pm10: Option<real>,
    pm2_5: Option<real>,
    carbonMonoxide: Option<real>,
    nitrogenDioxide: Option<real>,
    sulphurDioxide: Option<real>,
    ozone: Option<real>,
    dust: Option<real>)

  /** The forecast response's `hourly` object: parallel arrays indexed by hour. */
  datatype HourlyPayload = HourlyPayload(
    time: seq<string>,
    temperature: seq<Option<real>>,
    apparentTemperature: seq<Option<real>>,
    precipitationProbability: seq<Option<real>>,
    relativeHumidity: seq<Option<real>>,
    windSpeed: seq<Option<real>>,
    windDirection: seq<Option<real>>,
    weatherCode: seq<int>,
    uvIndex: seq<Option<real>>,
    cloudCover: seq<Option<real>>,
    visibility: seq<Option<real>>)
  {
    /** Every array the hourly normaliser reads has at least `n` entries. */
    predicate Covers(n: nat) {
      && |time| >= n && |temperature| >= n && |apparentTemperature| >= n
      && |precipitationProbability| >= n && |relativeHumidity| >= n
      && |windSpeed| >= n && |windDirection| >= n && |weatherCode| >= n
      && |uvIndex| >= n && |cloudCover| >= n && |visibility| >= n
    }
  }

  /** The forecast response's `daily` object: parallel arrays indexed by day. */
  datatype DailyPayload = DailyPayload(
    time: seq<string>,
    temperatureMax: seq<Option<real>>,
    temperatureMin: seq<Option<real>>,
    weatherCode: seq<int>,
    precipitationProbabilityMax: seq<Option<real>>,
    precipitationSum: seq<Option<real>>,
    sunrise: seq<string>,
    sunset: seq<string>,
    uvIndexMax: seq<Option<real>>,
    windSpeedMax: seq<Option<real>>)
  {
    /** Every array the daily normaliser reads has at least `n` entries. */
    predicate Covers(n: nat) {
      && |time| >= n && |temperatureMax| >= n && |temperatureMin| >= n
      && |weatherCode| >= n && |precipitationProbabilityMax| >= n
      && |precipitationSum| >= n && |sunrise| >= n && |sunset| >= n
      && |uvIndexMax| >= n && |windSpeedMax| >= n
    }
  }

  /**
   * The parsed forecast body. A key the body lacks is `None`: reading
   * `hourly.time` or `daily.time` of a missing object throws.
   */
  datatype ForecastBody = ForecastBody(
    current: Option<Current>,
    hourly: Option<HourlyPayload>,
    daily: Option<DailyPayload>)

  /** The parsed air-quality body. */
  datatype AirQualityBody = AirQualityBody(current: Option<AirQuality>)

  /** What `response.json()` gives: a body, or a parse failure (it throws). */
  datatype Parsed<T> = Malformed | Json(body: T)

  /**
   * The outcome of `fetch` followed by `.json()`: the promise rejects
   * (network failure), or a response arrives with its `ok` status flag.
   */
  datatype Fetched<T> = NetworkError | Response(ok: bool, parsed: Parsed<T>)
}
