# Weather providers, modelled in Dafny

This project models the core of `weather`, a Go command-line tool. The tool
fetches the current weather and a five-day forecast for a US location from
one of two providers and maps each provider's payload onto shared records.
`CurrentWeather`, `DailyForecast` and `Forecast` are those records (module
`Weather`).

- **OpenWeather** (module `OpenWeather`) builds the request URL. The query
  is by ZIP code when the location is five digits and by name otherwise. The
  provider copies the current-weather payload. It turns the 3-hourly
  forecast samples into one record per calendar day:
  - it drops samples whose hour sorts below `"06"`;
  - it keeps a running maximum of the highs and of the wind speed, and a
    running minimum of the lows, seeded with -1000, 1000 and 0;
  - it takes the description and humidity from the day's first retained
    sample, unless a sample at `12:00:00` overrides them;
  - it emits the days in ascending date order.

  The aggregation is a method over a map of per-day accumulators
  (`AccumulateDays`, with `AddSample` as its loop body). Its dates are
  sorted by an in-place insertion sort on an array (module `Sorting`). Each
  method is proved against a declarative specification: `DaySamples`,
  `DayHigh`, `DayLow`, `DayWind`, `Representative` and `Aggregates`.
- **Open-Meteo** (module `OpenMeteo`) classifies the location as a ZIP
  code, as "City, ST", or as free text. It sends the geocoding query and
  picks the first candidate in the requested state, using the 50-state
  table. It names WMO weather codes from a 24-entry table. Its forecast has
  five days, read across parallel daily arrays, skipping today.
- Module `Text` holds the Go string operations the providers use:
  - `strings.Split`, and `Join` as its inverse;
  - Go's `<` on strings;
  - `strings.Contains` and `strings.TrimSpace`;
  - the two regular expressions.

Each HTTP request becomes a function parameter. For OpenWeather it maps the
request's `Source` (test file or URL) to the decoded payload or an error
text. For Open-Meteo, `geocode` maps a URL to candidates and `weather` maps
a `WeatherRequest` to a response. `url.QueryEscape` is a parameter `escape`.
Temperatures and wind speeds are `real`. Dates are kept as their
`YYYY-MM-DD` text.

For a location that is neither a ZIP code nor "City, ST", the Open-Meteo
geocoding query carries count 0, because `getCoordinates` never assigns
`count` on that branch (pkg/weather/openmeteo/provider.go:106, 119-121).

## Model

| member | source | states |
|---|---|---|
| Text.IndexOf | pkg/weather/openweather/provider.go:199 | the index of the first separator, or the length when there is none; no separator occurs before it |
| Text.Split | pkg/weather/openweather/provider.go:199-203 | `strings.Split`: a text with no separator is its own only piece; a text with one has at least two pieces |
| Text.SplitShape | pkg/weather/openweather/provider.go:199-203 | the same, stated with membership of the separator, and no piece holds the separator |
| Text.SplitCount | pkg/weather/openweather/provider.go:199-203 | there is one more piece than there are separators in the text |
| Text.JoinSplit | pkg/weather/openweather/provider.go:199-200 | joining the pieces of a split with the separator gives back the text |
| Text.SplitJoin | pkg/weather/openmeteo/provider.go:112-113 | splitting pieces that are free of the separator after joining them gives back the pieces |
| Text.IndexOfPrefix | pkg/weather/openmeteo/provider.go:112 | the first separator after a separator-free prefix sits right after that prefix |
| Text.SplitFirst | pkg/weather/openweather/provider.go:199 | the first piece is the text before the first separator |
| Text.IsZip | pkg/weather/openmeteo/provider.go:108 | five ASCII digits, as `^\d{5}$` and `^[0-9]{5}$` accept; such a text holds no comma and no space |
| Text.LexLess | pkg/weather/openweather/provider.go:204 | Go's string `<`: exactly when the left text is a proper prefix of the right one, or holds the smaller character where the two first differ |
| Text.LexLessIrreflexive | pkg/weather/openweather/provider.go:204 | Go's string `<` is irreflexive |
| Text.LexLessTransitive | pkg/weather/openweather/provider.go:240 | Go's string `<` is transitive |
| Text.LexLessTotal | pkg/weather/openweather/provider.go:240 | any two strings are equal or ordered one way or the other |
| Text.LexLessAsymmetric | pkg/weather/openweather/provider.go:240 | no two strings are each below the other |
| Text.Contains | pkg/weather/openweather/provider.go:229 | `strings.Contains` holds exactly when the text occurs at some position |
| Text.ContainsAt | pkg/weather/openweather/provider.go:229 | `strings.Contains` holds when the text occurs at some position |
| Text.TrimLeft | pkg/weather/openmeteo/provider.go:114-115 | the result is a suffix, begins with no white space, and only white space was removed |
| Text.TrimRight | pkg/weather/openmeteo/provider.go:114-115 | the result is a prefix, ends with no white space, and only white space was removed |
| Text.TrimSpace | pkg/weather/openmeteo/provider.go:114-115 | `strings.TrimSpace`: the result has no white space at either end and sits in the text with nothing but white space before and after it |
| Text.TrimSpaceLeadingSpace | pkg/weather/openmeteo/provider.go:115 | a leading white-space character does not change the trimmed text |
| Text.TrimSpaceNoop | pkg/weather/openmeteo/provider.go:114-115 | a text without surrounding white space is left unchanged |
| Sorting.LessEqTransitive | pkg/weather/openweather/provider.go:240 | the order `sort.Strings` sorts by is transitive |
| Sorting.LessEqTotal | pkg/weather/openweather/provider.go:240 | that order is total |
| Sorting.SortStrings | pkg/weather/openweather/provider.go:240 | `sort.Strings`: the array ends up ascending and a permutation of its old contents |
| OpenWeather.LocationQuery | pkg/weather/openweather/provider.go:307-312 | the query is by `zip=` exactly when the location is five ASCII digits; the exact query text of each form, with country, units and key |
| OpenWeather.BuildURL | pkg/weather/openweather/provider.go:301-313 | the endpoint is `forecast` exactly when asked for, and the location query follows its question mark |
| OpenWeather.SourceFor | pkg/weather/openweather/provider.go:259-273 | test mode reads `weather.forecast.json` or `weather.weather.json`; otherwise the built URL |
| OpenWeather.GetCurrentWeather | pkg/weather/openweather/provider.go:128-148 | a fetch error is passed on; "no weather data available" exactly when `weather` is empty; otherwise the first description and the fields copied one to one |
| OpenWeather.CurrentFromForecast | pkg/weather/openweather/provider.go:169-185 | nil exactly when there is no first sample or it has no description; otherwise the first sample under the city's name |
| OpenWeather.LastNoon | pkg/weather/openweather/provider.go:229-232 | the index of the last sample at 12:00:00, or none when no sample is at noon |
| OpenWeather.ProcessForecastData | pkg/weather/openweather/provider.go:187-257 | the output meets `Aggregates`: one record per retained date, strictly ascending dates, each record the summary of that date's retained samples |
| OpenWeather.AccumulateDays | pkg/weather/openweather/provider.go:196-233 | after the loop the map's keys are the retained dates, and each entry is the accumulation of that date's retained samples in list order |
| OpenWeather.AddSample | pkg/weather/openweather/provider.go:208-232 | one loop step: a new date starts from the seeds and the sample's description and humidity; high, low and wind move only toward the sample; a noon sample sets description and humidity; other dates are untouched |
| OpenWeather.CollectDates | pkg/weather/openweather/provider.go:236-239 | every key of the map, each once, in a fresh array |
| OpenWeather.SortedDates | pkg/weather/openweather/provider.go:235-240 | the dates are exactly the map's keys, each once, in strictly ascending order |
| OpenWeather.EmitDays | pkg/weather/openweather/provider.go:242-256 | one record per sorted date, carrying that date's accumulated values |
| OpenWeather.GetForecast | pkg/weather/openweather/provider.go:150-167 | a fetch error is passed on; "no forecast data available" exactly when the list is empty; otherwise city name, current weather from the first sample, and the aggregated days |
| OpenWeather.DayHighIsMaximum | pkg/weather/openweather/provider.go:208-221 | a day's high is at least -1000 and every sample's maximum, and equals -1000 or one of them |
| OpenWeather.DayLowIsMinimum | pkg/weather/openweather/provider.go:208-224 | a day's low is at most 1000 and every sample's minimum, and equals 1000 or one of them |
| OpenWeather.DayWindIsMaximum | pkg/weather/openweather/provider.go:208-227 | a day's wind speed is at least 0 and every sample's speed, and equals 0 or one of them |
| OpenWeather.HighNotBelowLow | pkg/weather/openweather/provider.go:208-224 | when each sample's minimum is at most its maximum, the day's low is at most its high |
| OpenWeather.RepresentativeIsLastNoonOrFirst | pkg/weather/openweather/provider.go:208-232 | description and humidity come from the last noon sample, or from the first sample when there is none |
| OpenWeather.DaySamplesAppend | pkg/weather/openweather/provider.go:198-233 | the samples of a date in a concatenated list are those of the first part followed by those of the second |
| OpenWeather.HasTimeIffSpace | pkg/weather/openweather/provider.go:200 | a timestamp has the second piece the source indexes exactly when it holds a space |
| OpenWeather.RetainedDatesAppend | pkg/weather/openweather/provider.go:198-216 | the retained dates of a concatenated list are the union of both parts' dates |
| OpenWeather.EarlySampleIgnored | pkg/weather/openweather/provider.go:202-206 | removing a sample whose hour sorts below "06", wherever it stands, leaves the accepted outputs unchanged |
| OpenWeather.SkipSampleDates | pkg/weather/openweather/provider.go:204-206 | a skipped sample adds no date |
| OpenWeather.SkipSampleDay | pkg/weather/openweather/provider.go:204-206 | a skipped sample adds nothing to any date |
| OpenWeather.AggregatesUnique | pkg/weather/openweather/provider.go:235-256 | the output is determined by the input: two outputs that both meet `Aggregates` are equal |
| OpenWeather.AscendingSameElements | pkg/weather/openweather/provider.go:236-240 | two strictly ascending sequences with the same elements are equal |
| OpenWeather.HourFilterOnClockHours | pkg/weather/openweather/provider.go:202-204 | on two-digit hours the string comparison with "06" agrees with the numeric comparison with 6 |
| OpenWeather.DistinctPermutation | pkg/weather/openweather/provider.go:236-240 | sorting distinct dates keeps them distinct |
| OpenWeather.StrictlyAscending | pkg/weather/openweather/provider.go:240 | an ascending sequence of distinct dates is strictly ascending |
| OpenWeather.CountDistinct | pkg/weather/openweather/provider.go:237-238 | each key of a sequence of distinct keys occurs once in its multiset |
| OpenMeteo.IsCityState | pkg/weather/openmeteo/provider.go:111 | a "City, ST" text is at least four characters long and never a ZIP code |
| OpenMeteo.IsCityStateMatchesPattern | pkg/weather/openmeteo/provider.go:111 | the "City, ST" test accepts exactly a non-empty city of letters and spaces, a comma, an optional space and two capitals |
| OpenMeteo.CityStateComma | pkg/weather/openmeteo/provider.go:111-112 | in such a text the comma after the city is the only one |
| OpenMeteo.Classify | pkg/weather/openmeteo/provider.go:106-121 | count 1 exactly for a ZIP code, 10 exactly for "City, ST", and a state filter only with count 10; the name is unchanged unless the location is "City, ST" |
| OpenMeteo.CityStateSplit | pkg/weather/openmeteo/provider.go:111-113 | a "City, ST" text is not a ZIP code and splits at its comma into exactly the city and the tail |
| OpenMeteo.StateTailTrim | pkg/weather/openmeteo/provider.go:115 | trimming the text after the comma leaves exactly the two capitals |
| OpenMeteo.CityStateQuery | pkg/weather/openmeteo/provider.go:111-118 | for "City, ST": the split always gives two pieces, the name is the trimmed city, the count 10, and the filter exactly the two capitals |
| OpenMeteo.FreeformQuery | pkg/weather/openmeteo/provider.go:106-121 | other text is searched unchanged, with no filter and count 0 |
| OpenMeteo.DecimalText | pkg/weather/openmeteo/provider.go:123-124 | `%d`: a non-empty run of digits without a leading zero |
| OpenMeteo.DecimalRoundTrip | pkg/weather/openmeteo/provider.go:123-124 | reading the written count back gives the count |
| OpenMeteo.GeocodeURL | pkg/weather/openmeteo/provider.go:123-124 | the search URL carries the escaped name and, as decimal digits, the count, then the fixed language and format |
| OpenMeteo.MatchedState | pkg/weather/openmeteo/provider.go:318-377 | a region matches a filter only when it is a listed state and the filter is a listed abbreviation |
| OpenMeteo.MatchedStateExamples | pkg/weather/openmeteo/provider.go:318-377 | the comparison is exact: "Iowa" matches "IA" but not "ia" or "IL", and "Washington" does not match "DC" |
| OpenMeteo.FirstMatch | pkg/weather/openmeteo/provider.go:138-145 | the index of a candidate in the state with none in it before, or none when no candidate is in it |
| OpenMeteo.FirstMatchAt | pkg/weather/openmeteo/provider.go:139-142 | a matching candidate with no match before it is the one the loop returns |
| OpenMeteo.FindInState | pkg/weather/openmeteo/provider.go:139-144 | the loop finds the first candidate in the state, or none |
| OpenMeteo.Choose | pkg/weather/openmeteo/provider.go:131-147 | no candidates: "location not found"; with a filter, the first candidate in the state, found exactly when some candidate is in it; without one, the first candidate |
| OpenMeteo.Coordinates | pkg/weather/openmeteo/provider.go:105-148 | a failed request is passed on; an answer goes through `Choose` for the classified query |
| OpenMeteo.GetCoordinates | pkg/weather/openmeteo/provider.go:105-148 | the method's result is `Coordinates` |
| OpenMeteo.UnlistedStateNotFound | pkg/weather/openmeteo/provider.go:138-145 | a filter that is no listed abbreviation always ends in "location not found" |
| OpenMeteo.WeatherDescription | pkg/weather/openmeteo/provider.go:283-316 | "unknown" exactly for codes outside the table; a listed code gets its own text |
| OpenMeteo.DescriptionsDistinct | pkg/weather/openmeteo/provider.go:285-310 | different listed codes have different texts |
| OpenMeteo.CurrentFrom | pkg/weather/openmeteo/provider.go:174-189 | feels-like equals the temperature; today's high and low are the first daily entries, or 0 when either array is empty; the location is the candidate's name |
| OpenMeteo.DayAt | pkg/weather/openmeteo/provider.go:217-226 | the record for day k is read at index k of every daily array |
| OpenMeteo.DailyItems | pkg/weather/openmeteo/provider.go:215-227 | five records, record i read from entry i + 1 |
| OpenMeteo.ForecastSkipsToday | pkg/weather/openmeteo/provider.go:216-218 | the forecast's dates are the response's dates after today, in order |
| OpenMeteo.RequestFor | pkg/weather/openmeteo/provider.go:160-161 | the request is for the candidate's coordinates and the given number of days |
| OpenMeteo.GetCurrentWeather | pkg/weather/openmeteo/provider.go:154-190 | a locating error is passed on, then a fetch error; otherwise the mapped current weather under the candidate's name |
| OpenMeteo.ForecastResponse | pkg/weather/openmeteo/provider.go:192-209 | there is a response exactly when locating and the six-day request both succeed |
| OpenMeteo.GetForecast | pkg/weather/openmeteo/provider.go:192-251 | errors are passed on; "insufficient forecast data available" exactly when fewer than two dates come back; otherwise the candidate's name, the current weather, and the five days after today |
| OpenMeteo.ShortResponsePassesGuard | pkg/weather/openmeteo/provider.go:211-222 | a response with two dates passes the guard but has no entry 5 for the loop to read |
| OpenMeteo.GetForecastChecked | pkg/weather/openmeteo/provider.go:192-251 | as GetForecast, but "insufficient forecast data available" exactly when some daily array lacks entry 5, so it never reads past an end |
| Weather.MessagesDistinct | pkg/weather/openweather/provider.go:135-157 | the errors the providers raise themselves ("no weather data available", "no forecast data available", "location not found: …", "insufficient forecast data available") read differently for different errors and different locations |

## Findings

| source | as written | input that shows it | evidently intended | confidence | as-written member | corrected member |
|---|---|---|---|---|---|---|
| pkg/weather/openmeteo/provider.go:211-226 | the guard rejects fewer than 2 dates, but the loop then reads index 5 of all six daily arrays | a response whose daily arrays hold 2 entries (today and tomorrow) | report "insufficient forecast data available" unless every daily array has 6 entries | not executed; the index panic follows from the code | OpenMeteo.ShortResponsePassesGuard | OpenMeteo.GetForecastChecked |

`OpenMeteo.GetForecast` models the code as written. Its precondition
excludes the responses that would panic. `OpenMeteo.GetForecastChecked` has
no such precondition and reports those responses as insufficient data.

## Left out

- HTTP transport, status codes, reading test files, and JSON decoding (the
  two `fetchData` functions): each fetch is a parameter returning the decoded
  payload or an error text, and the error texts are not modelled.
- `url.QueryEscape` is the parameter `escape`. Its percent-encoding is not
  modelled.
- The Open-Meteo forecast URLs print latitude and longitude with `%f`. Float
  formatting is out of scope, so those requests are the `WeatherRequest`
  value: the point and the number of days, 1 or 6. The fixed lists of
  requested daily and current fields are not modelled.
- Go's float64 arithmetic: temperatures and speeds are exact reals. This
  matters only for comparisons, which agree except for NaN.
- `time.Parse` of the dates. Dates stay as their `YYYY-MM-DD` text, and the
  zero time Go yields for an unparsable date is not modelled.
- Debug printing (`debugMode`), the `New` constructors, and the `Provider`
  interface. The interface would be a trait; each module exposes the two
  operations directly.
- cmd/weather/main.go is not part of this model.
- OpenWeather.ProcessForecastData: Go's map of `*dailyData` pointers becomes
  a map of `DayAcc` values that the loop reassigns. The loop body is the
  method `AddSample`, and the key collection, the sort and the output loop
  are `CollectDates`, `SortedDates` and `EmitDays`. Go's map iteration
  order is not modelled, because the keys are sorted right after.
- OpenWeather.ProcessForecastData requires every timestamp to hold a space,
  and every first or noon sample of a retained day to have a description.
  In Go, input that breaks this panics on an index; the panic is not
  modelled.
- OpenMeteo.GetForecast requires six entries in every daily array once two
  dates are present. Go panics otherwise (see Findings).
- OpenMeteo.MatchedState: the 50-entry table is kept as one map literal.
  Properties that quantify over all of its keys, such as injectivity of the
  abbreviations, are not proved, because the solver cannot enumerate a map
  literal of that size. Lookups of given names are proved.
- OpenMeteo.GetCoordinates: the loop over the candidates is the separate
  method `FindInState`.
