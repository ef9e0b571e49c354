/**
 * The dashboard's pure classifiers: weather code to text, weather code to
 * icon (the detailed ladder of the main panel and the shorter one of the
 * hourly and daily cards), European AQI to band, UV index to band, and the
 * current conditions to a background. Icons and colours are enum values.
 */
module Classifier {
  import opened JsValues
  import opened Ladder
  import opened Payloads

  // ---------------------------------------------------------------------------
  // Weather code descriptions
  // ---------------------------------------------------------------------------

  /** The WMO weather codes the dashboard describes, and their text. */
  const WeatherCodes: map<int, string> := map[
    0 := "Clear sky",
    1 := "Mainly clear",
    2 := "Partly cloudy",
    3 := "Overcast",
    45 := "Foggy",
    48 := "Depositing rime fog",
    51 := "Light drizzle",
    53 := "Moderate drizzle",
    55 := "Dense drizzle",
    61 := "Slight rain",
    63 := "Moderate rain",
    65 := "Heavy rain",
    71 := "Slight snow",
    73 := "Moderate snow",
    75 := "Heavy snow",
    77 := "Snow grains",
    80 := "Slight rain showers",
    81 := "Moderate rain showers",
    82 := "Violent rain showers",
    85 := "Slight snow showers",
    86 := "Heavy snow showers",
    95 := "Thunderstorm",
    96 := "Thunderstorm with slight hail",
    99 := "Thunderstorm with heavy hail"
  ]

  /** The 24 codes of the table, written out. */
  const DescribedCodes: set<int> :=
    {0, 1, 2, 3, 45, 48, 51, 53, 55, 61, 63, 65, 71, 73, 75, 77, 80, 81, 82, 85, 86, 95, 96, 99}

  /**
   * `weatherCodes[code] || 'Unknown'`: the table's text for a described code,
   * exactly "Unknown" for every other code, and never empty.
   */
  function WeatherDescription(code: int): (d: string)
    ensures code in DescribedCodes ==> d == WeatherCodes[code] && d != "Unknown"
    ensures code !in DescribedCodes ==> d == "Unknown"
    ensures d != ""
  {
    if code in WeatherCodes && WeatherCodes[code] != "" then WeatherCodes[code] else "Unknown"
  }

  // ---------------------------------------------------------------------------
  // Icons
  // ---------------------------------------------------------------------------

  /** The icon components the dashboard picks from (`lucide-react` names). */
  datatype Icon = Sun | Cloud | CloudFog | CloudDrizzle | CloudRain | CloudSnow | Zap

  /**
   * The main panel's icon ladder (`getWeatherIcon`), first match wins. Its
   * rungs claim disjoint codes, so each icon is chosen for exactly the codes
   * listed here, whatever the order of the rungs.
   */
  function WeatherIcon(code: int): (icon: Icon)
    ensures icon == Sun <==> code == 0 || code == 1
    ensures icon == CloudFog <==> code == 45 || code == 48
    ensures icon == CloudDrizzle <==> 51 <= code <= 55
    ensures icon == CloudRain <==> 61 <= code <= 67 || 80 <= code <= 82
    ensures icon == CloudSnow <==> 71 <= code <= 77 || 85 <= code <= 86
    ensures icon == Zap <==> code >= 95
  {
    if code == 0 || code == 1 then Sun
    else if code == 2 then Cloud
    else if code == 3 then Cloud
    else if code == 45 || code == 48 then CloudFog
    else if code >= 51 && code <= 55 then CloudDrizzle
    else if code >= 61 && code <= 67 then CloudRain
    else if code >= 71 && code <= 77 then CloudSnow
    else if code >= 80 && code <= 82 then CloudRain
    else if code >= 85 && code <= 86 then CloudSnow
    else if code >= 95 then Zap
    else Cloud
  }

  /** `getWeatherIcon` written as an ordered table, with `Cloud` as the default. */
  const IconRules: seq<Rule<Icon>> := [
    Rule(Closed(0, 1), Sun),
    Rule(Closed(2, 3), Cloud),
    Rule(Closed(45, 45), CloudFog),
    Rule(Closed(48, 48), CloudFog),
    Rule(Closed(51, 55), CloudDrizzle),
    Rule(Closed(61, 67), CloudRain),
    Rule(Closed(71, 77), CloudSnow),
    Rule(Closed(80, 82), CloudRain),
    Rule(Closed(85, 86), CloudSnow),
    Rule(AtLeast(95), Zap)
  ]

  /** The icon ladder's inline card variant (`HourlyCard` and `DailyCard`). */
  function CardIcon(code: int): (icon: Icon)
    ensures icon != CloudFog && icon != CloudDrizzle
  {
    if code == 0 || code == 1 then Sun
    else if code == 2 || code == 3 then Cloud
    else if code >= 61 && code <= 67 then CloudRain
    else if code >= 71 && code <= 77 then CloudSnow
    else if code >= 95 then Zap
    else Cloud
  }

  /** The card ladder as an ordered table, with `Cloud` as the default. */
  const CardRules: seq<Rule<Icon>> := [
    Rule(Closed(0, 1), Sun),
    Rule(Closed(2, 3), Cloud),
    Rule(Closed(61, 67), CloudRain),
    Rule(Closed(71, 77), CloudSnow),
    Rule(AtLeast(95), Zap)
  ]

  /** No code is claimed by two rungs of `getWeatherIcon`. */
  lemma IconRulesDisjoint()
    ensures Disjoint(IconRules)
  {
  }

  /** The ladder and its table agree on every code, unmatched codes included. */
  lemma WeatherIconByTable(code: int)
    ensures WeatherIcon(code) == Classify(IconRules, code, Cloud)
  {
    IconRulesDisjoint();
    var k := if code == 0 || code == 1 then 0
             else if code == 2 || code == 3 then 1
             else if code == 45 then 2
             else if code == 48 then 3
             else if 51 <= code <= 55 then 4
             else if 61 <= code <= 67 then 5
             else if 71 <= code <= 77 then 6
             else if 80 <= code <= 82 then 7
             else if 85 <= code <= 86 then 8
             else if code >= 95 then 9
             else 10;
    if k < 10 {
      DisjointChoosesClaimingRule(IconRules, code, k, Cloud);
    } else {
      UnclaimedFallsThrough(IconRules, code, Cloud);
    }
  }

  /** The card ladder and its table agree on every code. */
  lemma CardIconByTable(code: int)
    ensures CardIcon(code) == Classify(CardRules, code, Cloud)
  {
  }

  /**
   * The cards and the main panel show the same icon except for fog, drizzle
   * and showers (codes 45, 48, 51-55, 80-82, 85-86), which the cards draw as
   * a plain cloud.
   */
  lemma CardIconAgreesWithWeatherIcon(code: int)
    ensures CardIcon(code) ==
              if code == 45 || code == 48 || 51 <= code <= 55 || 80 <= code <= 82 || 85 <= code <= 86
              then Cloud else WeatherIcon(code)
  {
  }

  // ---------------------------------------------------------------------------
  // Air quality (European AQI)
  // ---------------------------------------------------------------------------

  datatype AirQualityLevel = Unknown | Good | Fair | Moderate | Poor | VeryPoor {
    /** The text shown for the level. */
    function Label(): string {
      match this
      case Unknown => "Unknown"
      case Good => "Good"
      case Fair => "Fair"
      case Moderate => "Moderate"
      case Poor => "Poor"
      case VeryPoor => "Very Poor"
    }

    /** The advice shown under the level. */
    function Description(): string {
      match this
      case Unknown => "No data"
      case Good => "Air quality is excellent"
      case Fair => "Air quality is acceptable"
      case Moderate => "Sensitive groups may experience effects"
      case Poor => "Everyone may experience effects"
      case VeryPoor => "Health warning of emergency conditions"
    }

    /** Position from best to worst among the levels that carry data. */
    function Rank(): nat {
      match this
      case Unknown => 0
      case Good => 0
      case Fair => 1
      case Moderate => 2
      case Poor => 3
      case VeryPoor => 4
    }
  }

  /** The inclusive upper bounds of the Good, Fair, Moderate and Poor bands. */
  const AqiBounds: seq<real> := [20.0, 40.0, 60.0, 80.0]

  /** The level for each band of `AqiBounds`, and `VeryPoor` past the last. */
  const AqiBandLevels: seq<AirQualityLevel> := [Good, Fair, AirQualityLevel.Moderate, Poor, VeryPoor]

  /**
   * `getAirQualityInfo`'s level. `!aqi` catches both an absent value and 0;
   * otherwise the first inclusive upper bound the value does not exceed
   * decides, and a value above 80 is Very Poor.
   */
  function AirQualityLevelOf(aqi: Option<real>): (level: AirQualityLevel)
    ensures level == Unknown <==> aqi.None? || aqi.value == 0.0
    ensures aqi.Some? && aqi.value != 0.0 ==> level == AqiBandLevels[FirstAtMost(AqiBounds, aqi.value)]
  {
    if aqi.None? || aqi.value == 0.0 then Unknown
    else if aqi.value <= 20.0 then Good
    else if aqi.value <= 40.0 then Fair
    else if aqi.value <= 60.0 then AirQualityLevel.Moderate
    else if aqi.value <= 80.0 then Poor
    else VeryPoor
  }

  /** What `getAirQualityInfo` returns, without its colour class. */
  datatype AirQualityInfo = AirQualityInfo(level: string, description: string)

  function AirQualityInfoOf(aqi: Option<real>): (info: AirQualityInfo)
    ensures (info.level == "Unknown") == (info.description == "No data")
    ensures info.level == "Unknown" <==> aqi.None? || aqi.value == 0.0
  {
    var level := AirQualityLevelOf(aqi);
    AirQualityInfo(level.Label(), level.Description())
  }

  /** For values that carry data, a higher AQI never gives a better level. */
  lemma AirQualityMonotone(a: real, b: real)
    requires a != 0.0 && b != 0.0 && a <= b
    ensures AirQualityLevelOf(Some(a)).Rank() <= AirQualityLevelOf(Some(b)).Rank()
  {
    FirstAtMostMonotone(AqiBounds, a, b);
  }

  // ---------------------------------------------------------------------------
  // UV index
  // ---------------------------------------------------------------------------

  datatype UvLevel = Low | Moderate | High | VeryHigh | Extreme {
    function Label(): string {
      match this
      case Low => "Low"
      case Moderate => "Moderate"
      case High => "High"
      case VeryHigh => "Very High"
      case Extreme => "Extreme"
    }

    function Rank(): nat {
      match this
      case Low => 0
      case Moderate => 1
      case High => 2
      case VeryHigh => 3
      case Extreme => 4
    }
  }

  /** The inclusive upper bounds of the Low, Moderate, High and Very High bands. */
  const UvBounds: seq<real> := [2.0, 5.0, 7.0, 10.0]

  const UvBandLevels: seq<UvLevel> := [UvLevel.Low, UvLevel.Moderate, UvLevel.High, UvLevel.VeryHigh, UvLevel.Extreme]

  /**
   * `getUVIndexInfo`'s level. There is no absence check: `undefined` fails
   * every comparison and ends at Extreme, while `null` compares as 0 and is
   * Low. A number lands in the first band whose upper bound it does not exceed.
   */
  function UvLevelOf(uv: JsNumber): (level: UvLevel)
    ensures uv.Undefined? ==> level == UvLevel.Extreme
    ensures uv.Null? ==> level == UvLevel.Low
    ensures uv.Number? ==> level == UvBandLevels[FirstAtMost(UvBounds, uv.value)]
  {
    if AtMost(uv, 2.0) then UvLevel.Low
    else if AtMost(uv, 5.0) then UvLevel.Moderate
    else if AtMost(uv, 7.0) then UvLevel.High
    else if AtMost(uv, 10.0) then UvLevel.VeryHigh
    else UvLevel.Extreme
  }

  /** A higher UV index never gives a lower band. */
  lemma UvMonotone(a: real, b: real)
    requires a <= b
    ensures UvLevelOf(Number(a)).Rank() <= UvLevelOf(Number(b)).Rank()
  {
    FirstAtMostMonotone(UvBounds, a, b);
  }

  // ---------------------------------------------------------------------------
  // Background
  // ---------------------------------------------------------------------------

  /** The page backgrounds `getBackgroundGradient` chooses between. */
  datatype Gradient = DefaultSky | NightSky | ClearDay | CloudyDay | RainyDay | SnowyDay | StormyDay

  /** The daytime background ladder as an ordered table, `DefaultSky` by default. */
  const DayGradientRules: seq<Rule<Gradient>> := [
    Rule(Closed(0, 1), ClearDay),
    Rule(Closed(2, 3), CloudyDay),
    Rule(Closed(61, 67), RainyDay),
    Rule(Closed(71, 77), SnowyDay),
    Rule(AtLeast(95), StormyDay)
  ]

  /**
   * `getBackgroundGradient`: the default without data, the night sky whenever
   * `is_day` is not 1 whatever the code, and otherwise the daytime ladder.
   */
  function BackgroundGradient(current: Option<Current>): (g: Gradient)
    ensures current.None? ==> g == DefaultSky
    ensures current.Some? && current.value.isDay != 1 ==> g == NightSky
    ensures current.Some? && current.value.isDay == 1 ==>
              g == Classify(DayGradientRules, current.value.weatherCode, DefaultSky)
  {
    if current.None? then DefaultSky
    else
      var isDay := current.value.isDay == 1;
      var code := current.value.weatherCode;
      if !isDay then NightSky
      else if code == 0 || code == 1 then ClearDay
      else if code == 2 || code == 3 then CloudyDay
      else if code >= 61 && code <= 67 then RainyDay
      else if code >= 71 && code <= 77 then SnowyDay
      else if code >= 95 then StormyDay
      else DefaultSky
  }

  /**
   * By day the background follows the card icon: a sun is a clear sky, rain
   * is rain, snow is snow, a bolt is a storm; a cloud is the cloudy sky only
   * for codes 2 and 3 and the default background otherwise.
   */
  lemma DayGradientFollowsCardIcon(c: Current)
    requires c.isDay == 1
    ensures BackgroundGradient(Some(c)) ==
              match CardIcon(c.weatherCode)
              case Sun => ClearDay
              case CloudRain => RainyDay
              case CloudSnow => SnowyDay
              case Zap => StormyDay
              case _ => if c.weatherCode == 2 || c.weatherCode == 3 then CloudyDay else DefaultSky
  {
  }

  /** Without data, and by day for a code no rung claims, the background is the same. */
  lemma DefaultGradientShared(c: Current)
    requires c.isDay == 1
    requires !(0 <= c.weatherCode <= 3 || 61 <= c.weatherCode <= 67 || 71 <= c.weatherCode <= 77 || c.weatherCode >= 95)
    ensures BackgroundGradient(Some(c)) == BackgroundGradient(None)
  {
  }

  /** Sample values from each air-quality band, and the absent reading. */
  lemma AirQualityExamples()
    ensures AirQualityLevelOf(Some(15.0)) == Good && AirQualityLevelOf(Some(35.0)) == Fair
    ensures AirQualityLevelOf(Some(55.0)) == AirQualityLevel.Moderate && AirQualityLevelOf(Some(75.0)) == Poor
    ensures AirQualityLevelOf(Some(95.0)) == VeryPoor && AirQualityLevelOf(None) == Unknown
  {
  }

  /** Sample values from each UV band. */
  lemma UvExamples()
    ensures UvLevelOf(Number(1.0)) == UvLevel.Low && UvLevelOf(Number(4.0)) == UvLevel.Moderate
    ensures UvLevelOf(Number(6.5)) == UvLevel.High && UvLevelOf(Number(9.0)) == UvLevel.VeryHigh
    ensures UvLevelOf(Number(12.0)) == UvLevel.Extreme
  {
  }
}
