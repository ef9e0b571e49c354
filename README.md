# Weather dashboard core, modelled in Dafny

The Weather Pro dashboard is one React component, `src/Weatherdashboard.jsx`.
Beneath its markup it holds the logic modelled here:

- the classifiers: weather code to description, weather code to icon (the
  main panel's ladder and the shorter ladder inlined in the hourly and daily
  cards), European AQI to band, UV index to band, and current conditions to
  a page background;
- the unit policy: the `unit` setting picks the forecast request's
  temperature and wind-speed units, and the wind-speed label follows the same
  test. Precipitation is always requested in millimetres;
- the series normalisers `processHourlyData` and `processDailyData`. They
  turn the provider's parallel arrays into exactly 24 hourly or 7 daily
  records, index by index;
- the location helpers: the `getLocationName` fallback chain, the
  `searchLocations` length guard and its handling of failed searches,
  `selectLocation`, and the `location.lat && location.lon` guard on the
  refresh effect;
- `fetchAllWeatherData`, the refresh of the component state from two fetches.

Files, one module each:

- `js_values.dfy` (`JsValues`): nullable provider numbers as `Option<real>`,
  `Math.round` as `(x + 0.5).Floor`, `x || 0`, string truthiness, and the
  JavaScript comparison `x <= c` when `x` is null or undefined.
- `ladder.dfy` (`Ladder`): first-match-wins tables. Integer ranges serve the
  icon and background ladders; inclusive upper bounds serve the AQI and UV
  ladders. It also proves that on disjoint rules the order of the rules does
  not matter.
- `payloads.dfy` (`Payloads`): the response bodies the component reads, and
  the abstract outcome of a `fetch` (`NetworkError`, or a response with its
  `ok` flag and a body that parsed or did not).
- `classifier.dfy` (`Classifier`), `unit_policy.dfy` (`UnitPolicy`),
  `series.dfy` (`Series`), `locations.dfy` (`Locations`).
- `dashboard.dfy` (`Dashboard`): the class `WeatherDashboard`, whose fields
  are the component's `useState` variables and whose methods are its
  handlers. `fetchAllWeatherData` is split at its `await`.
  `BeginRefresh` is what runs before the fetches. `CompleteRefresh` is what
  runs after them, with the fetch outcomes as inputs. `FetchAllWeatherData`
  runs both.

Where the system's design description and the code disagree, the model
follows the code:

- The normalisers have no length check and no `MalformedPayload` error. The
  model requires at least 24 (or 7) entries per array instead.
- The normalisers do not attach an icon category to the records.
- A failed or unreadable air-quality response is as fatal as a forecast
  failure. It does not degrade to absent air-quality data. A non-`ok`
  air-quality status is not checked at all.
- There is no generation counter. A slow response can overwrite a newer one.
  In the model, `BeginRefresh` and `CompleteRefresh` pairs can interleave
  freely, and the last completion wins.
- A failed refresh does not always leave the data alone. Say the forecast
  body lacks its `hourly` object. `processHourlyData` then throws after
  `setCurrentWeather` has already run, so the current conditions change
  although the error is shown. Likewise a missing `daily` object throws
  after the hourly series has been replaced. `CompleteRefresh` states these
  two cases separately from the clean failures.
- `getUVIndexInfo` has no absence check. `undefined` fails every comparison
  and gives Extreme. But an absent provider value is JSON `null`, and
  `null <= 2` holds in JavaScript, so the UV panel shows Low for a missing
  daily UV maximum.
- An AQI of exactly 0 is falsy, so it gives "Unknown"/"No data" like an
  absent value.

## Model

| member | source | states |
|---|---|---|
| `JsValues.Round` | src/Weatherdashboard.jsx:131 | `Math.round` gives the nearest integer with halves rounding up; a null value gives 0 |
| `JsValues.NearestIntIsUnique` | src/Weatherdashboard.jsx:135 | the rounding property fixes the integer: only one integer is nearest |
| `Ladder.FirstMatch` | src/Weatherdashboard.jsx:198-210 | a first-match ladder picks the first rule that claims the code, and no earlier rule claims it |
| `Ladder.DisjointChoosesClaimingRule` | src/Weatherdashboard.jsx:203-208 | when no code is claimed by two rules, the rule that claims the code is chosen, whatever the order |
| `Ladder.UnclaimedFallsThrough` | src/Weatherdashboard.jsx:209 | a code that no rule claims gets the ladder's default |
| `Ladder.FirstAtMost` | src/Weatherdashboard.jsx:238-242 | an inclusive-upper-bound ladder picks the first bound the value does not exceed, and the value exceeds all earlier bounds |
| `Ladder.FirstAtMostMonotone` | src/Weatherdashboard.jsx:214-218 | a larger value never lands in an earlier band |
| `Classifier.WeatherDescription` | src/Weatherdashboard.jsx:168-196 | each of the 24 listed codes gets its table text, which is not "Unknown"; every other code gets exactly "Unknown"; the text is never empty |
| `Classifier.WeatherIcon` | src/Weatherdashboard.jsx:198-210 | each icon is chosen for exactly its codes: Sun for 0 and 1, Fog for 45 and 48, Drizzle for 51-55, Rain for 61-67 and 80-82, Snow for 71-77 and 85-86, Zap for 95 and above, Cloud for all others |
| `Classifier.IconRulesDisjoint` | src/Weatherdashboard.jsx:199-208 | no code is claimed by two rungs of the icon ladder |
| `Classifier.WeatherIconByTable` | src/Weatherdashboard.jsx:199-209 | the icon ladder equals its ordered table with Cloud as the default, for every code |
| `Classifier.CardIcon` | src/Weatherdashboard.jsx:620-624 | the card ladder never shows the fog or drizzle icon |
| `Classifier.CardIconByTable` | src/Weatherdashboard.jsx:657-661 | the card ladder equals its ordered table with Cloud as the default |
| `Classifier.CardIconAgreesWithWeatherIcon` | src/Weatherdashboard.jsx:621-624 | cards and main panel agree except on fog, drizzle and shower codes, which cards draw as a plain cloud |
| `Classifier.AirQualityLevelOf` | src/Weatherdashboard.jsx:212-219 | Unknown exactly when the AQI is absent or 0; otherwise the level of the first inclusive bound among 20, 40, 60 and 80 the value does not exceed, and Very Poor above 80 |
| `Classifier.AirQualityInfoOf` | src/Weatherdashboard.jsx:213 | the level text is "Unknown" exactly when the description is "No data", and exactly when the AQI is absent or 0 |
| `Classifier.AirQualityMonotone` | src/Weatherdashboard.jsx:214-218 | for non-zero readings a higher AQI never gives a better level |
| `Classifier.AirQualityExamples` | src/Weatherdashboard.jsx:215-217 | 15, 35, 55, 75 and 95 land in Good, Fair, Moderate, Poor and Very Poor; absent is Unknown |
| `Classifier.UvLevelOf` | src/Weatherdashboard.jsx:237-243 | undefined gives Extreme and null gives Low; a number gets the level of the first inclusive bound among 2, 5, 7 and 10 it does not exceed, and Extreme above 10 |
| `Classifier.UvMonotone` | src/Weatherdashboard.jsx:238-242 | a higher UV index never gives a lower band |
| `Classifier.UvExamples` | src/Weatherdashboard.jsx:239-241 | 1, 4, 6.5, 9 and 12 land in Low, Moderate, High, Very High and Extreme |
| `Classifier.BackgroundGradient` | src/Weatherdashboard.jsx:221-235 | the default without data; the night sky whenever `is_day` is not 1, whatever the code; the daytime table otherwise |
| `Classifier.DayGradientFollowsCardIcon` | src/Weatherdashboard.jsx:228-232 | by day the background follows the card icon: sun is clear sky, rain is rain, snow is snow, a bolt is a storm; a cloud is the cloudy sky only for codes 2 and 3 |
| `Classifier.DefaultGradientShared` | src/Weatherdashboard.jsx:222-234 | no data and an unclaimed daytime code give the same background |
| `UnitPolicy.UnitsFor` | src/Weatherdashboard.jsx:92-97 | celsius and km/h exactly when the setting is "celsius", fahrenheit and mph for any other value; precipitation is always "mm" |
| `UnitPolicy.WindSpeedLabel` | src/Weatherdashboard.jsx:391 | the label is "km/h" exactly when the setting is "celsius", and "mph" otherwise |
| `UnitPolicy.LabelMatchesRequest` | src/Weatherdashboard.jsx:548 | the label always names the wind unit requested, and the temperature unit goes with it |
| `Series.HourlyAt` | src/Weatherdashboard.jsx:129-141 | hourly record i takes every field from index i. Temperature, feels-like and wind speed are rounded, with null giving 0. Precipitation probability and UV index default to 0. The rest pass through |
| `Series.DailyAt` | src/Weatherdashboard.jsx:151-162 | daily record i takes every field from index i. Highs, lows and wind speed are rounded. Precipitation probability defaults to 0. Precipitation sum and UV maximum pass through and may stay absent |
| `Series.HourlySeries` | src/Weatherdashboard.jsx:128 | exactly 24 records, record i built from index i |
| `Series.DailySeries` | src/Weatherdashboard.jsx:150 | exactly 7 records, record i built from index i |
| `Series.ProcessHourlyData` | src/Weatherdashboard.jsx:123-145 | the loop returns the hourly series of the payload |
| `Series.ProcessDailyData` | src/Weatherdashboard.jsx:147-166 | the loop returns the daily series of the payload |
| `Series.HourlySeriesReadsOnlyFirst24` | src/Weatherdashboard.jsx:124-128 | only entries 0 to 23 matter; the unused current hour does not shift the window |
| `Series.DailySeriesReadsOnlyFirst7` | src/Weatherdashboard.jsx:152-161 | only entries 0 to 6 matter |
| `Series.AbsentUvDefaultsOnlyHourly` | src/Weatherdashboard.jsx:138 | an absent hourly UV index becomes 0, while an absent daily UV maximum or precipitation sum stays absent |
| `Series.AbsentDailyUvShowsLow` | src/Weatherdashboard.jsx:509-513 | the UV panel shows Low for a first day whose UV maximum is absent |
| `Locations.FirstTruthy` | src/Weatherdashboard.jsx:52 | the or-chain stops at the first non-empty string, and every earlier one is absent or empty |
| `Locations.OrChainOfThree` | src/Weatherdashboard.jsx:52 | on three values the chain is name, else city, else region, else the fallback |
| `Locations.LocationName` | src/Weatherdashboard.jsx:44-58 | the first non-empty of name, city and region of the first result, else "Unknown Location". A failure or an empty result list also gives "Unknown Location". The name is never empty |
| `Dashboard.FetchFailuresAreFatal` | src/Weatherdashboard.jsx:100-109 | a failed forecast call, a non-ok forecast, or a failed or unreadable air-quality call stops the refresh. It completes exactly when both bodies arrived with hourly and daily objects |
| `Dashboard.AirStatusIgnored` | src/Weatherdashboard.jsx:105-109 | an air-quality response that is not ok is used like one that is |
| `Dashboard.WeatherDashboard.constructor` | src/Weatherdashboard.jsx:5-16 | starts in London with celsius units, no data, no suggestions, not loading and no error |
| `Dashboard.WeatherDashboard.SearchLocations` | src/Weatherdashboard.jsx:60-75 | a query under 2 characters clears the suggestions and sends nothing. Otherwise one request goes out. A failure keeps the old suggestions; a body gives its results, or [] without them |
| `Dashboard.WeatherDashboard.QueryChanged` | src/Weatherdashboard.jsx:295-298 | the text is stored and then searched for |
| `Dashboard.WeatherDashboard.SelectLocation` | src/Weatherdashboard.jsx:77-85 | the candidate's coordinates and name replace the location; the query and suggestions are cleared |
| `Dashboard.WeatherDashboard.SetUnit` | src/Weatherdashboard.jsx:270-278 | the unit setting becomes the chosen value |
| `Dashboard.WeatherDashboard.ForecastQueryNow` | src/Weatherdashboard.jsx:96-97 | the request uses the location's coordinates, the setting's units and millimetres |
| `Dashboard.WeatherDashboard.BeginRefresh` | src/Weatherdashboard.jsx:88-89 | loading is on and the error is cleared |
| `Dashboard.WeatherDashboard.CompleteRefresh` | src/Weatherdashboard.jsx:91-120 | loading ends. After a failed fetch the data is untouched and the fixed message shows. Missing hourly or daily objects change only the fields set before the throw. Otherwise all five data fields are replaced |
| `Dashboard.WeatherDashboard.FetchAllWeatherData` | src/Weatherdashboard.jsx:87-121 | as `CompleteRefresh`; the query is the one for the location and unit, and a complete refresh ends with no error |
| `Dashboard.WeatherDashboard.LocationOrUnitChanged` | src/Weatherdashboard.jsx:22-26 | a refresh runs exactly when both coordinates are non-zero; otherwise nothing changes |

## Left out

- Rendering: JSX, Tailwind class strings and icon components. Icons and backgrounds are enum values, and the colour classes of the AQI and UV bands are dropped.
- `fetch`, URL building and encoding, JSON parsing and the provider APIs. Each call is an abstract outcome: a network error, or a response with its `ok` flag and a parsed or unreadable body.
- The `count=5` cap on search results. It is a request parameter that the provider applies, so the model takes the result list as given.
- `getUserLocation` and the `navigator.geolocation` callbacks (lines 28-42), including their `setLoading(true)`, and the mount effect (lines 18-20). These are platform calls.
- React scheduling. `LocationOrUnitChanged` models the effect body, not when React decides to run it.
- Clocks and formatting. `new Date()` becomes the `now` parameter. `toLocaleDateString`, `toLocaleTimeString`, `getHours` and `toFixed` are library calls. The hourly normaliser's unused `currentHour` is not modelled.
- `activeTab` and the other purely visual state.
- String lengths are counted in characters. JavaScript's `query.length` counts UTF-16 code units, so a single character outside the Basic Multilingual Plane passes the 2-character guard there but not in the model.
- Floating point: provider numbers are reals, and NaN is not modelled.
- Weather codes are integers. A null code reaches no rung of any ladder and no key of the table, so it behaves like any unmapped code. Non-integer codes are not modelled.
- A forecast body whose `hourly` or `daily` object exists but lacks one of its arrays. Reading it throws, which the model does not cover; it covers only whole missing objects.
- Series.ProcessHourlyData: requires at least 24 entries in every hourly array. With fewer, the source reads `undefined` past the end and builds records of `undefined` and NaN.
- Series.ProcessDailyData: requires at least 7 entries in every daily array, for the same reason.
- Dashboard.WeatherDashboard.CompleteRefresh: requires the same array lengths of any hourly and daily objects in the forecast body.
