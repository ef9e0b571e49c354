/**
 * `processHourlyData` and `processDailyData`: each runs a counted loop over
 * the provider's parallel arrays and pushes one record per index, so the
 * hourly series has exactly 24 records and the daily one exactly 7, record i
 * built from index i of every array. Temperatures and wind speeds go through
 * `Math.round`; the precipitation probabilities (and the hourly UV index)
 * default to 0 with `|| 0`; everything else is passed through as it is.
 * The hourly normaliser reads the clock but never uses the hour, so it
 * always starts at index 0; the clock is not part of this model.
 */
module Series {
  import opened JsValues
  import opened Payloads
  import opened Classifier

  const HourCount: nat := 24
  const DayCount: nat := 7

  /** One record of the hourly series. */
  datatype HourlyPoint = HourlyPoint(
    time: string,
    temp: int,
    feelsLike: int,
    precipitation: real,
    humidity: Option<real>,
    windSpeed: int,
    windDirection: Option<real>,
    weatherCode: int,
    uvIndex: real,
    cloudCover: Option<real>,
    visibility: Option<real>)

  /** One record of the daily series. */
  datatype DailyPoint = DailyPoint(
    date: string,
    tempMax: int,
    tempMin: int,
    weatherCode: int,
    precipitation: real,
    precipSum: Option<real>,
    sunrise: string,
    sunset: string,
    uvIndex: Option<real>,
    windSpeed: int)

  /** `n` is what `Math.round` gives for the nullable provider value `x`. */
  ghost predicate RoundedFrom(n: int, x: Option<real>) {
    match x
    case None => n == 0
    case Some(v) => NearestInt(n, v)
  }

  /** `r` is `x || 0`: the provider value, or 0 when it is absent. */
  ghost predicate DefaultedFrom(r: real, x: Option<real>) {
    match x
    case None => r == 0.0
    case Some(v) => r == v
  }

  /** The record the hourly loop pushes for index `i`. */
  function HourlyAt(h: HourlyPayload, i: nat): (p: HourlyPoint)
    requires i < HourCount && h.Covers(HourCount)
    ensures p.time == h.time[i] && p.weatherCode == h.weatherCode[i]
    ensures RoundedFrom(p.temp, h.temperature[i]) && RoundedFrom(p.feelsLike, h.apparentTemperature[i])
    ensures RoundedFrom(p.windSpeed, h.windSpeed[i])
    ensures DefaultedFrom(p.precipitation, h.precipitationProbability[i])
    ensures DefaultedFrom(p.uvIndex, h.uvIndex[i])
    ensures p.humidity == h.relativeHumidity[i] && p.windDirection == h.windDirection[i]
    ensures p.cloudCover == h.cloudCover[i] && p.visibility == h.visibility[i]
  {
    HourlyPoint(
      time := h.time[i],
      temp := Round(h.temperature[i]),
      feelsLike := Round(h.apparentTemperature[i]),
      precipitation := OrZero(h.precipitationProbability[i]),
      humidity := h.relativeHumidity[i],
      windSpeed := Round(h.windSpeed[i]),
      windDirection := h.windDirection[i],
      weatherCode := h.weatherCode[i],
      uvIndex := OrZero(h.uvIndex[i]),
      cloudCover := h.cloudCover[i],
      visibility := h.visibility[i])
  }

  /** The record the daily loop pushes for index `i`. */
  function DailyAt(d: DailyPayload, i: nat): (p: DailyPoint)
    requires i < DayCount && d.Covers(DayCount)
    ensures p.date == d.time[i] && p.weatherCode == d.weatherCode[i]
    ensures RoundedFrom(p.tempMax, d.temperatureMax[i]) && RoundedFrom(p.tempMin, d.temperatureMin[i])
    ensures RoundedFrom(p.windSpeed, d.windSpeedMax[i])
    ensures DefaultedFrom(p.precipitation, d.precipitationProbabilityMax[i])
    ensures p.precipSum == d.precipitationSum[i] && p.uvIndex == d.uvIndexMax[i]
    ensures p.sunrise == d.sunrise[i] && p.sunset == d.sunset[i]
  {
    DailyPoint(
      date := d.time[i],
      tempMax := Round(d.temperatureMax[i]),
      tempMin := Round(d.temperatureMin[i]),
      weatherCode := d.weatherCode[i],
      precipitation := OrZero(d.precipitationProbabilityMax[i]),
      precipSum := d.precipitationSum[i],
      sunrise := d.sunrise[i],
      sunset := d.sunset[i],
      uvIndex := d.uvIndexMax[i],
      windSpeed := Round(d.windSpeedMax[i]))
  }

  /** The whole hourly series, as a value. */
  function HourlySeries(h: HourlyPayload): (s: seq<HourlyPoint>)
    requires h.Covers(HourCount)
    ensures |s| == HourCount
    ensures forall i :: 0 <= i < HourCount ==> s[i] == HourlyAt(h, i)
  {
    seq(HourCount, i requires 0 <= i < HourCount => HourlyAt(h, i))
  }

  /** The whole daily series, as a value. */
  function DailySeries(d: DailyPayload): (s: seq<DailyPoint>)
    requires d.Covers(DayCount)
    ensures |s| == DayCount
    ensures forall i :: 0 <= i < DayCount ==> s[i] == DailyAt(d, i)
  {
    seq(DayCount, i requires 0 <= i < DayCount => DailyAt(d, i))
  }

  /** `processHourlyData`: a 24-step loop pushing one record per hour. */
  method ProcessHourlyData(hourly: HourlyPayload) returns (data: seq<HourlyPoint>)
    requires hourly.Covers(HourCount)
    ensures data == HourlySeries(hourly)
  {
    data := [];
    var i := 0;
    while i < HourCount
      invariant 0 <= i <= HourCount
      invariant |data| == i
      invariant forall k :: 0 <= k < i ==> data[k] == HourlyAt(hourly, k)
    {
      data := data + [HourlyPoint(
        time := hourly.time[i],
        temp := Round(hourly.temperature[i]),
        feelsLike := Round(hourly.apparentTemperature[i]),
        precipitation := OrZero(hourly.precipitationProbability[i]),
        humidity := hourly.relativeHumidity[i],
        windSpeed := Round(hourly.windSpeed[i]),
        windDirection := hourly.windDirection[i],
        weatherCode := hourly.weatherCode[i],
        uvIndex := OrZero(hourly.uvIndex[i]),
        cloudCover := hourly.cloudCover[i],
        visibility := hourly.visibility[i])];
      i := i + 1;
    }
  }

  /** `processDailyData`: a 7-step loop pushing one record per day. */
  method ProcessDailyData(daily: DailyPayload) returns (data: seq<DailyPoint>)
    requires daily.Covers(DayCount)
    ensures data == DailySeries(daily)
  {
    data := [];
    var i := 0;
    while i < DayCount
      invariant 0 <= i <= DayCount
      invariant |data| == i
      invariant forall k :: 0 <= k < i ==> data[k] == DailyAt(daily, k)
    {
      data := data + [DailyPoint(
        date := daily.time[i],
        tempMax := Round(daily.temperatureMax[i]),
        tempMin := Round(daily.temperatureMin[i]),
        weatherCode := daily.weatherCode[i],
        precipitation := OrZero(daily.precipitationProbabilityMax[i]),
        precipSum := daily.precipitationSum[i],
        sunrise := daily.sunrise[i],
        sunset := daily.sunset[i],
        uvIndex := daily.uvIndexMax[i],
        windSpeed := Round(daily.windSpeedMax[i]))];
      i := i + 1;
    }
  }

  /** The hourly record at `i` depends on index `i` of the arrays and nothing else. */
  ghost predicate SameHour(h: HourlyPayload, h': HourlyPayload, i: nat)
    requires h.Covers(HourCount) && h'.Covers(HourCount) && i < HourCount
  {
    && h.time[i] == h'.time[i] && h.temperature[i] == h'.temperature[i]
    && h.apparentTemperature[i] == h'.apparentTemperature[i]
    && h.precipitationProbability[i] == h'.precipitationProbability[i]
    && h.relativeHumidity[i] == h'.relativeHumidity[i] && h.windSpeed[i] == h'.windSpeed[i]
    && h.windDirection[i] == h'.windDirection[i] && h.weatherCode[i] == h'.weatherCode[i]
    && h.uvIndex[i] == h'.uvIndex[i] && h.cloudCover[i] == h'.cloudCover[i]
    && h.visibility[i] == h'.visibility[i]
  }

  /**
   * Only the first 24 entries matter: two payloads that agree there give the
   * same series, whatever follows and however long the arrays are.
   */
  lemma HourlySeriesReadsOnlyFirst24(h: HourlyPayload, h': HourlyPayload)
    requires h.Covers(HourCount) && h'.Covers(HourCount)
    requires forall i :: 0 <= i < HourCount ==> SameHour(h, h', i)
    ensures HourlySeries(h) == HourlySeries(h')
  {
    forall i | 0 <= i < HourCount
      ensures HourlySeries(h)[i] == HourlySeries(h')[i]
    {
      assert SameHour(h, h', i);
    }
  }

  /** Two daily payloads agree at index `i` of every array the normaliser reads. */
  ghost predicate SameDay(d: DailyPayload, d': DailyPayload, i: nat)
    requires d.Covers(DayCount) && d'.Covers(DayCount) && i < DayCount
  {
    && d.time[i] == d'.time[i] && d.temperatureMax[i] == d'.temperatureMax[i]
    && d.temperatureMin[i] == d'.temperatureMin[i] && d.weatherCode[i] == d'.weatherCode[i]
    && d.precipitationProbabilityMax[i] == d'.precipitationProbabilityMax[i]
    && d.precipitationSum[i] == d'.precipitationSum[i]
    && d.sunrise[i] == d'.sunrise[i] && d.sunset[i] == d'.sunset[i]
    && d.uvIndexMax[i] == d'.uvIndexMax[i] && d.windSpeedMax[i] == d'.windSpeedMax[i]
  }

  /** Only the first 7 entries matter to the daily series. */
  lemma DailySeriesReadsOnlyFirst7(d: DailyPayload, d': DailyPayload)
    requires d.Covers(DayCount) && d'.Covers(DayCount)
    requires forall i :: 0 <= i < DayCount ==> SameDay(d, d', i)
    ensures DailySeries(d) == DailySeries(d')
  {
    forall i | 0 <= i < DayCount
      ensures DailySeries(d)[i] == DailySeries(d')[i]
    {
      assert SameDay(d, d', i);
    }
  }

  /**
   * The two normalisers default differently: an absent hourly UV index
   * becomes 0, while an absent daily UV maximum or precipitation sum stays
   * absent in the record.
   */
  lemma AbsentUvDefaultsOnlyHourly(h: HourlyPayload, d: DailyPayload, i: nat, j: nat)
    requires h.Covers(HourCount) && i < HourCount && h.uvIndex[i].None?
    requires d.Covers(DayCount) && j < DayCount && d.uvIndexMax[j].None? && d.precipitationSum[j].None?
    ensures HourlySeries(h)[i].uvIndex == 0.0
    ensures DailySeries(d)[j].uvIndex.None? && DailySeries(d)[j].precipSum.None?
  {
  }

  /**
   * The UV panel classifies the first day's record. Its absent UV maximum is
   * JSON null, which the comparisons read as 0, so the panel shows Low.
   */
  lemma AbsentDailyUvShowsLow(d: DailyPayload)
    requires d.Covers(DayCount) && d.uvIndexMax[0].None?
    ensures UvLevelOf(FromJson(DailySeries(d)[0].uvIndex)) == UvLevel.Low
  {
  }
}
