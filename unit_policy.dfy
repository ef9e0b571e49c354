/**
 * How the dashboard's unit setting (a string, 'celsius' or 'fahrenheit')
 * becomes the forecast request's unit parameters and the wind-speed label.
 * Only the exact string 'celsius' selects the metric units; every other value
 * selects the imperial ones. Precipitation is always asked for in millimetres.
 */
module UnitPolicy {

  datatype TemperatureUnit = Celsius | Fahrenheit {
    /** The `temperature_unit` query value. */
    function Param(): string {
      match this
      case Celsius => "celsius"
      case Fahrenheit => "fahrenheit"
    }
  }

  datatype WindSpeedUnit = Kmh | Mph {
    /** The `wind_speed_unit` query value. */
    function Param(): string {
      match this
      case Kmh => "kmh"
      case Mph => "mph"
    }
  }

  /** The units of one forecast request. */
  datatype RequestUnits = RequestUnits(
    temperature: TemperatureUnit,
    windSpeed: WindSpeedUnit,
    precipitation: string)

  /** The unit setting the dashboard starts with. */
  const DefaultUnit := "celsius"

  /** The `precipitation_unit` query value, whatever the setting. */
  const PrecipitationParam := "mm"

  /**
   * `tempUnit` and `windUnit` of `fetchAllWeatherData`, with the fixed
   * `precipitation_unit=mm`. Both units are decided by the same test, so a
   * request is either wholly metric or wholly imperial.
   */
  function UnitsFor(unit: string): (u: RequestUnits)
    ensures u.temperature == Celsius <==> unit == "celsius"
    ensures u.windSpeed == Kmh <==> unit == "celsius"
    ensures u.precipitation == "mm"
  {
    var tempUnit := if unit == "celsius" then Celsius else Fahrenheit;
    var windUnit := if unit == "celsius" then Kmh else Mph;
    RequestUnits(tempUnit, windUnit, PrecipitationParam)
  }

  /** The wind-speed unit printed beside the current and daily wind speeds. */
  function WindSpeedLabel(unit: string): (text: string)
    ensures text == "km/h" <==> unit == "celsius"
    ensures text == "mph" <==> unit != "celsius"
  {
    if unit == "celsius" then "km/h" else "mph"
  }

  /** The label always names the unit the request asked the provider for. */
  lemma LabelMatchesRequest(unit: string)
    ensures WindSpeedLabel(unit) == (if UnitsFor(unit).windSpeed == Kmh then "km/h" else "mph")
    ensures UnitsFor(unit).temperature.Param() == (if UnitsFor(unit).windSpeed == Kmh then "celsius" else "fahrenheit")
  {
  }
}
