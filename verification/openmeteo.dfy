/**
 * The Open-Meteo provider (pkg/weather/openmeteo/provider.go): geocoding a
 * free-text location (ZIP code, "City, ST" or anything else), the US state
 * filter over the geocoder's candidates, the WMO weather-code table, and
 * the mapping of the forecast API's parallel daily arrays onto the
 * provider-independent records.
 *
 * The two HTTP requests become function parameters: `geocode` answers a
 * geocoding URL, `weather` answers a request for a point and a number of
 * forecast days.
 */
module OpenMeteo {
  import opened Wrappers
  import opened Text
  import opened Weather

  // ---------------------------------------------------------------------
  // Payloads
  // ---------------------------------------------------------------------

  /** One geocoding candidate; `state` is the first-level region (admin1). */
  datatype GeocodingResult = GeocodingResult(
    name: string, state: string, country: string, latitude: real, longitude: real)

  datatype GeocodingResponse = GeocodingResponse(results: seq<GeocodingResult>)

  datatype CurrentBlock = CurrentBlock(
    temperature: real, windSpeed: real, weatherCode: int, relativeHumidity: int)

  /** The daily block: parallel arrays, one entry per day, today first. */
  datatype DailyBlock = DailyBlock(
    time: seq<string>,
    tempMax: seq<real>,
    tempMin: seq<real>,
    windSpeed: seq<real>,
    weatherCode: seq<int>,
    relativeHumidity: seq<int>)

  datatype WeatherResponse = WeatherResponse(current: CurrentBlock, daily: DailyBlock)

  /** A forecast request: the point and how many days to return. The current
      weather asks for 1 day, the forecast for 6. */
  datatype WeatherRequest = WeatherRequest(latitude: real, longitude: real, forecastDays: nat)

  // ---------------------------------------------------------------------
  // Classifying the location
  // ---------------------------------------------------------------------

  predicate IsCityChar(c: char) { IsLetter(c) || c == ' ' }

  /** What may follow the comma in "City, ST": an optional space, then two
      capital letters, then the end of the text. */
  predicate IsStateTail(t: string) {
    || (|t| == 2 && IsUpper(t[0]) && IsUpper(t[1]))
    || (|t| == 3 && t[0] == ' ' && IsUpper(t[1]) && IsUpper(t[2]))
  }

  /** The language of `^[a-zA-Z ]+, ?[A-Z]{2}$`. The city part cannot hold a
      comma, so the comma the pattern needs is the first one. */
  predicate IsCityState(s: string)
    ensures IsCityState(s) ==> |s| >= 4 && !IsZip(s)
  {
    var k := IndexOf(s, ',');
    && 0 < k < |s|
    && (forall i :: 0 <= i < k ==> IsCityChar(s[i]))
    && IsStateTail(s[k + 1..])
  }

  /** `s` is a non-empty city of letters and spaces, a comma, and a state tail. */
  predicate CityStateParts(s: string, city: string, tail: string) {
    && s == city + [','] + tail
    && city != []
    && (forall i :: 0 <= i < |city| ==> IsCityChar(city[i]))
    && IsStateTail(tail)
  }

  /** IsCityState accepts exactly the texts that decompose as the pattern says. */
  lemma IsCityStateMatchesPattern(s: string)
    ensures IsCityState(s) <==> exists city, tail :: CityStateParts(s, city, tail)
  {
    var k := IndexOf(s, ',');
    if IsCityState(s) {
      assert s == s[..k] + [','] + s[k + 1..];
      assert CityStateParts(s, s[..k], s[k + 1..]);
    }
    if city, tail :| CityStateParts(s, city, tail) {
      CityStateComma(s, city, tail);
    }
  }

  /** In a "City, ST" text the only comma is the one after the city. */
  lemma CityStateComma(s: string, city: string, tail: string)
    requires CityStateParts(s, city, tail)
    ensures ',' !in city && ',' !in tail
    ensures IndexOf(s, ',') == |city|
    ensures s[..|city|] == city && s[|city| + 1..] == tail
  {
    assert forall i :: 0 <= i < |city| ==> city[i] != ',' by {
      forall i | 0 <= i < |city| ensures city[i] != ',' {
        assert IsCityChar(city[i]);
      }
    }
    IndexOfPrefix(city, ',', tail);
  }

  /** The geocoding query getCoordinates sends: the name to search for, how
      many candidates to ask for, and the state to filter by ("" for none). */
  datatype GeocodeQuery = GeocodeQuery(name: string, count: nat, state: string)

  /** The location's shape decides the query. A ZIP code is sent as it is
      with count 1; "City, ST" is sent as the trimmed city with count 10 and
      the trimmed state as filter; any other text is sent as it is, and the
      count keeps Go's zero value. */
  function Classify(location: string): (q: GeocodeQuery)
    ensures q.count == 1 <==> IsZip(location)
    ensures q.count == 10 <==> !IsZip(location) && IsCityState(location)
    ensures q.state != "" ==> q.count == 10
    ensures q.count != 10 ==> q.name == location
  {
    if IsZip(location) then
      GeocodeQuery(location, 1, "")
    else if IsCityState(location) then
      var parts := Split(location, ',');
      if |parts| == 2 then
        GeocodeQuery(TrimSpace(parts[0]), 10, TrimSpace(parts[1]))
      else
        GeocodeQuery(location, 10, "")
    else
      GeocodeQuery(location, 0, "")
  }

  /** For "City, ST" the query is the city without surrounding space, 10
      candidates, and exactly the two capitals as state filter: the text
      always splits into two pieces at its comma. */
  lemma CityStateQuery(s: string, city: string, tail: string)
    requires CityStateParts(s, city, tail)
    ensures Classify(s) == GeocodeQuery(TrimSpace(city), 10, tail[|tail| - 2..])
    ensures |Classify(s).state| == 2 && IsUpper(Classify(s).state[0]) && IsUpper(Classify(s).state[1])
  {
    CityStateSplit(s, city, tail);
    StateTailTrim(tail);
  }

  /** A "City, ST" text is no ZIP code and splits at its comma into the city
      and the tail. */
  lemma CityStateSplit(s: string, city: string, tail: string)
    requires CityStateParts(s, city, tail)
    ensures IsCityState(s) && !IsZip(s)
    ensures Split(s, ',') == [city, tail]
  {
    CityStateComma(s, city, tail);
    var parts := [city, tail];
    assert Join(parts, ',') == s by {
      assert parts[1..] == [tail];
    }
    SplitJoin(parts, ',');
  }

  /** Trimming a state tail leaves its two capitals. */
  lemma StateTailTrim(tail: string)
    requires IsStateTail(tail)
    ensures TrimSpace(tail) == tail[|tail| - 2..]
  {
    if |tail| == 2 {
      CapitalsTrim(tail);
      assert tail[0..] == tail;
    } else {
      assert |tail| == 3 && tail[0] == ' ';
      var abbr := tail[1..];
      assert [tail[0]] + abbr == tail;
      CapitalsTrim(abbr);
      TrimSpaceLeadingSpace(tail[0], abbr);
    }
  }

  lemma CapitalsTrim(abbr: string)
    requires |abbr| == 2 && IsUpper(abbr[0]) && IsUpper(abbr[1])
    ensures TrimSpace(abbr) == abbr
  {
    TrimSpaceNoop(abbr);
  }

  /** Neither a ZIP code nor "City, ST": the text is searched as it is, with
      no state filter. */
  lemma FreeformQuery(s: string)
    requires !IsZip(s) && !IsCityState(s)
    ensures Classify(s) == GeocodeQuery(s, 0, "")
  {
  }

  // ---------------------------------------------------------------------
  // The geocoding request
  // ---------------------------------------------------------------------

  const GeocodingBase: string := "https://geocoding-api.open-meteo.com/v1/search?name="

  /** The decimal text of `n`, as fmt's %d writes it. */
  function DecimalText(n: nat): (s: string)
    ensures s != [] && forall i :: 0 <= i < |s| ==> IsDigit(s[i])
    ensures |s| > 1 ==> s[0] != '0'
  {
    if n < 10 then ['0' + n as char]
    else DecimalText(n / 10) + ['0' + (n % 10) as char]
  }

  /** The number a string of decimal digits denotes. */
  function DecimalValue(s: string): nat
    requires forall i :: 0 <= i < |s| ==> IsDigit(s[i])
  {
    if s == [] then 0
    else
      assert IsDigit(s[|s| - 1]);
      10 * DecimalValue(s[..|s| - 1]) + (s[|s| - 1] as int - '0' as int)
  }

  /** Reading back the count parameter gives the count. */
  lemma {:induction false} DecimalRoundTrip(n: nat)
    ensures DecimalValue(DecimalText(n)) == n
  {
    if n >= 10 {
      DecimalRoundTrip(n / 10);
      var s := DecimalText(n);
      assert s[..|s| - 1] == DecimalText(n / 10);
    }
  }

  /** The search URL: the escaped name and the count, in fixed text. */
  function GeocodeURL(q: GeocodeQuery, escape: string -> string): (url: string)
    ensures StartsWith(url, GeocodingBase + escape(q.name) + "&count=")
    ensures var rest := url[|GeocodingBase + escape(q.name) + "&count="|..];
      && |rest| >= |DecimalText(q.count)|
      && (forall i :: 0 <= i < |DecimalText(q.count)| ==> IsDigit(rest[i]))
      && DecimalValue(rest[..|DecimalText(q.count)|]) == q.count
      && rest[|DecimalText(q.count)|..] == "&language=en&format=json"
  {
    var head := GeocodingBase + escape(q.name) + "&count=";
    var url := head + DecimalText(q.count) + "&language=en&format=json";
    assert url[..|head|] == head;
    assert url[|head|..] == DecimalText(q.count) + "&language=en&format=json";
    DecimalRoundTrip(q.count);
    url
  }

  // ---------------------------------------------------------------------
  // The US state table
  // ---------------------------------------------------------------------

  /** Full state name to its postal abbreviation. */
  const StateAbbreviations: map<string, string> := map[
    "Alabama" := "AL", "Alaska" := "AK", "Arizona" := "AZ", "Arkansas" := "AR",
    "California" := "CA", "Colorado" := "CO", "Connecticut" := "CT", "Delaware" := "DE",
    "Florida" := "FL", "Georgia" := "GA", "Hawaii" := "HI", "Idaho" := "ID",
    "Illinois" := "IL", "Indiana" := "IN", "Iowa" := "IA", "Kansas" := "KS",
    "Kentucky" := "KY", "Louisiana" := "LA", "Maine" := "ME", "Maryland" := "MD",
    "Massachusetts" := "MA", "Michigan" := "MI", "Minnesota" := "MN", "Mississippi" := "MS",
    "Missouri" := "MO", "Montana" := "MT", "Nebraska" := "NE", "Nevada" := "NV",
    "New Hampshire" := "NH", "New Jersey" := "NJ", "New Mexico" := "NM", "New York" := "NY",
    "North Carolina" := "NC", "North Dakota" := "ND", "Ohio" := "OH", "Oklahoma" := "OK",
    "Oregon" := "OR", "Pennsylvania" := "PA", "Rhode Island" := "RI", "South Carolina" := "SC",
    "South Dakota" := "SD", "Tennessee" := "TN", "Texas" := "TX", "Utah" := "UT",
    "Vermont" := "VT", "Virginia" := "VA", "Washington" := "WA", "West Virginia" := "WV",
    "Wisconsin" := "WI", "Wyoming" := "WY"]

  /** matchedState: the region is a listed state whose abbreviation is `abbr`. */
  predicate MatchedState(fullName: string, abbr: string)
    ensures MatchedState(fullName, abbr) ==> fullName in StateAbbreviations && abbr in StateAbbreviations.Values
  {
    fullName in StateAbbreviations && StateAbbreviations[fullName] == abbr
  }

  /** The comparison is exact: a listed state matches its own abbreviation
      only, in capitals, and an unlisted region name matches nothing. */
  lemma MatchedStateExamples()
    ensures MatchedState("Iowa", "IA") && MatchedState("New York", "NY")
    ensures !MatchedState("Iowa", "ia") && !MatchedState("Iowa", "IL")
    ensures !MatchedState("Washington", "DC")
  {
  }

  // ---------------------------------------------------------------------
  // Choosing the candidate
  // ---------------------------------------------------------------------

  /** The index of the first candidate in the requested state, if any. */
  function FirstMatch(results: seq<GeocodingResult>, state: string): (r: Option<nat>)
    ensures r.Some? ==> r.value < |results| && MatchedState(results[r.value].state, state)
    ensures r.Some? ==> forall j :: 0 <= j < r.value ==> !MatchedState(results[j].state, state)
    ensures r.None? ==> forall j :: 0 <= j < |results| ==> !MatchedState(results[j].state, state)
  {
    if results == [] then None
    else if MatchedState(results[0].state, state) then Some(0)
    else match FirstMatch(results[1..], state)
      case Some(k) => Some(k + 1)
      case None => None
  }

  /** A match with none before it is the first match. */
  lemma FirstMatchAt(results: seq<GeocodingResult>, state: string, i: nat)
    requires i < |results| && MatchedState(results[i].state, state)
    requires forall j :: 0 <= j < i ==> !MatchedState(results[j].state, state)
    ensures FirstMatch(results, state) == Some(i)
  {
  }

  /** The candidate getCoordinates settles on once the geocoder answered:
      none at all is "location not found"; with a state filter, the first
      candidate in that state, or "location not found" when none is; without
      one, the first candidate. */
  function Choose(results: seq<GeocodingResult>, q: GeocodeQuery): (r: Result<GeocodingResult, Error>)
    ensures r.Failure? ==> r.error == LocationNotFound(q.name)
    ensures r.Success? ==> r.value in results
    ensures |results| > 0 && q.state == "" ==> r == Success(results[0])
    ensures r.Success? && q.state != "" ==> MatchedState(r.value.state, q.state)
    ensures r.Success? && q.state != "" ==>
      exists k :: 0 <= k < |results| && r.value == results[k] &&
        forall j :: 0 <= j < k ==> !MatchedState(results[j].state, q.state)
    ensures q.state != "" ==>
      (r.Success? <==> exists k :: 0 <= k < |results| && MatchedState(results[k].state, q.state))
  {
    if |results| == 0 then Failure(LocationNotFound(q.name))
    else if q.state != "" then
      match FirstMatch(results, q.state)
      case Some(k) => Success(results[k])
      case None => Failure(LocationNotFound(q.name))
    else Success(results[0])
  }

  /** What getCoordinates returns for `location`, given the geocoder: a
      failed request is passed on, and an answer goes through Choose. */
  function Coordinates(location: string, escape: string -> string,
                       geocode: string -> Result<GeocodingResponse, string>): (r: Result<GeocodingResult, Error>)
    ensures var f := geocode(GeocodeURL(Classify(location), escape));
      && (f.Failure? ==> r == Failure(Fetch(f.error)))
      && (f.Success? ==> r == Choose(f.value.results, Classify(location)))
  {
    match geocode(GeocodeURL(Classify(location), escape))
    case Failure(e) => Failure(Fetch(e))
    case Success(data) => Choose(data.results, Classify(location))
  }

  /** The loop of getCoordinates over the candidates: the index of the
      first one in `state`. */
  method FindInState(results: seq<GeocodingResult>, state: string) returns (found: Option<nat>)
    ensures found == FirstMatch(results, state)
  {
    var i := 0;
    while i < |results|
      invariant 0 <= i <= |results|
      invariant forall j :: 0 <= j < i ==> !MatchedState(results[j].state, state)
    {
      if MatchedState(results[i].state, state) {
        FirstMatchAt(results, state, i);
        return Some(i);
      }
      i := i + 1;
    }
    return None;
  }

  /** getCoordinates: classify, query, then take the first candidate in the
      requested state, or the first candidate when there is no state. */
  method GetCoordinates(location: string, escape: string -> string,
                        geocode: string -> Result<GeocodingResponse, string>) returns (r: Result<GeocodingResult, Error>)
    ensures r == Coordinates(location, escape, geocode)
  {
    var q := Classify(location);
    var fetched := geocode(GeocodeURL(q, escape));
    if fetched.Failure? {
      return Failure(Fetch(fetched.error));
    }
    var results := fetched.value.results;
    if |results| == 0 {
      return Failure(LocationNotFound(q.name));
    }
    if q.state != "" {
      var found := FindInState(results, q.state);
      if found.Some? {
        return Success(results[found.value]);
      }
      return Failure(LocationNotFound(q.name));
    }
    return Success(results[0]);
  }

  /** An abbreviation outside the table matches no candidate, so a
      "City, ST" query for it is never found. */
  lemma UnlistedStateNotFound(location: string, escape: string -> string,
                              geocode: string -> Result<GeocodingResponse, string>)
    requires Classify(location).state != "" && Classify(location).state !in StateAbbreviations.Values
    requires geocode(GeocodeURL(Classify(location), escape)).Success?
    ensures Coordinates(location, escape, geocode) == Failure(LocationNotFound(Classify(location).name))
  {
    var q := Classify(location);
    var results := geocode(GeocodeURL(q, escape)).value.results;
    forall k | 0 <= k < |results| ensures !MatchedState(results[k].state, q.state) {
      if results[k].state in StateAbbreviations {
        assert StateAbbreviations[results[k].state] in StateAbbreviations.Values;
      }
    }
  }

  // ---------------------------------------------------------------------
  // Weather codes
  // ---------------------------------------------------------------------

  /** The WMO weather interpretation codes the provider names. */
  const WmoCodes: map<int, string> := map[
    0 := "clear sky", 1 := "mainly clear", 2 := "partly cloudy", 3 := "overcast",
    45 := "foggy", 48 := "depositing rime fog",
    51 := "light drizzle", 53 := "moderate drizzle", 55 := "dense drizzle",
    61 := "slight rain", 63 := "moderate rain", 65 := "heavy rain",
    71 := "slight snow", 73 := "moderate snow", 75 := "heavy snow", 77 := "snow grains",
    80 := "slight rain showers", 81 := "moderate rain showers", 82 := "violent rain showers",
    85 := "slight snow showers", 86 := "heavy snow showers",
    95 := "thunderstorm", 96 := "thunderstorm with slight hail", 99 := "thunderstorm with heavy hail"]

  /** getWeatherDescription: the table's text, or "unknown". "unknown" is
      returned exactly for codes outside the table, and a code in the table
      gets its own text. */
  function WeatherDescription(code: int): (d: string)
    ensures d == "unknown" <==> code !in WmoCodes
    ensures code in WmoCodes ==> d == WmoCodes[code]
  {
    if code in WmoCodes then
      assert forall c :: c in WmoCodes ==> WmoCodes[c] != "unknown";
      WmoCodes[code]
    else
      "unknown"
  }

  /** Different listed codes have different texts, so the text identifies
      the code. */
  lemma DescriptionsDistinct(a: int, b: int)
    requires a in WmoCodes && b in WmoCodes && a != b
    ensures WeatherDescription(a) != WeatherDescription(b)
  {
  }

  // ---------------------------------------------------------------------
  // Mapping the forecast response
  // ---------------------------------------------------------------------

  /** The current-weather record for the place `name`: the feels-like value
      is the temperature itself, and today's high and low are the first
      daily entries, or 0 when either array is empty. */
  function CurrentFrom(data: WeatherResponse, name: string): (w: CurrentWeather)
    ensures w.location == name
    ensures w.feelsLike == w.temperature == data.current.temperature
    ensures w.conditions == WeatherDescription(data.current.weatherCode)
    ensures w.humidity == data.current.relativeHumidity && w.windSpeed == data.current.windSpeed
    ensures |data.daily.tempMax| > 0 && |data.daily.tempMin| > 0 ==>
      w.tempMax == data.daily.tempMax[0] && w.tempMin == data.daily.tempMin[0]
    ensures |data.daily.tempMax| == 0 || |data.daily.tempMin| == 0 ==> w.tempMax == 0.0 && w.tempMin == 0.0
  {
    var both := |data.daily.tempMax| > 0 && |data.daily.tempMin| > 0;
    var high := if both then data.daily.tempMax[0] else 0.0;
    var low := if both then data.daily.tempMin[0] else 0.0;
    CurrentWeather(
      name, WeatherDescription(data.current.weatherCode),
      data.current.temperature, data.current.temperature,
      high, low, data.current.relativeHumidity, data.current.windSpeed)
  }

  /** The number of days the forecast lists: the days after today. */
  const ForecastDays: nat := 5

  /** Every daily array reaches the last day the forecast reads. */
  predicate FullDaily(daily: DailyBlock) {
    && |daily.time| > ForecastDays
    && |daily.tempMax| > ForecastDays
    && |daily.tempMin| > ForecastDays
    && |daily.windSpeed| > ForecastDays
    && |daily.weatherCode| > ForecastDays
    && |daily.relativeHumidity| > ForecastDays
  }

  /** The record for day `k` of the response, read across the arrays. */
  function DayAt(daily: DailyBlock, k: nat): (day: DailyForecast)
    requires FullDaily(daily) && k <= ForecastDays
    ensures day.date == daily.time[k]
  {
    DailyForecast(
      daily.time[k], WeatherDescription(daily.weatherCode[k]),
      daily.tempMax[k], daily.tempMin[k], daily.windSpeed[k], daily.relativeHumidity[k])
  }

  /** Go's zero DailyForecast, what make() fills the slice with. */
  const ZeroDay: DailyForecast := DailyForecast("", "", 0.0, 0.0, 0.0, 0)

  /** The loop of GetForecast: five records, day i taken from entry i + 1,
      skipping today. */
  method DailyItems(daily: DailyBlock) returns (items: seq<DailyForecast>)
    requires FullDaily(daily)
    ensures |items| == ForecastDays
    ensures forall i :: 0 <= i < ForecastDays ==> items[i] == DayAt(daily, i + 1)
  {
    var buffer := new DailyForecast[ForecastDays](_ => ZeroDay);
    for i := 0 to ForecastDays
      invariant forall j :: 0 <= j < i ==> buffer[j] == DayAt(daily, j + 1)
    {
      buffer[i] := DayAt(daily, i + 1);
    }
    items := buffer[..];
  }

  /** The forecast's dates are the response's dates after today, in order. */
  lemma ForecastSkipsToday(daily: DailyBlock, items: seq<DailyForecast>)
    requires FullDaily(daily) && |items| == ForecastDays
    requires forall i :: 0 <= i < ForecastDays ==> items[i] == DayAt(daily, i + 1)
    ensures forall i :: 0 <= i < |items| ==> items[i].date == daily.time[1..ForecastDays + 1][i]
  {
  }

  // ---------------------------------------------------------------------
  // The provider operations
  // ---------------------------------------------------------------------

  /** The request GetCurrentWeather or GetForecast sends for a place. */
  function RequestFor(coords: GeocodingResult, days: nat): (req: WeatherRequest)
    ensures req.latitude == coords.latitude && req.longitude == coords.longitude && req.forecastDays == days
  {
    WeatherRequest(coords.latitude, coords.longitude, days)
  }

  /** GetCurrentWeather: locate, fetch one day, and map it. */
  method GetCurrentWeather(location: string, escape: string -> string,
                           geocode: string -> Result<GeocodingResponse, string>,
                           weather: WeatherRequest -> Result<WeatherResponse, string>)
    returns (r: Result<CurrentWeather, Error>)
    ensures var c := Coordinates(location, escape, geocode);
      && (c.Failure? ==> r == Failure(c.error))
      && (c.Success? && weather(RequestFor(c.value, 1)).Failure? ==>
            r == Failure(Fetch(weather(RequestFor(c.value, 1)).error)))
      && (r.Success? <==> c.Success? && weather(RequestFor(c.value, 1)).Success?)
      && (r.Success? ==> r.value == CurrentFrom(weather(RequestFor(c.value, 1)).value, c.value.name))
  {
    var coords := GetCoordinates(location, escape, geocode);
    if coords.Failure? {
      return Failure(coords.error);
    }
    var fetched := weather(RequestFor(coords.value, 1));
    if fetched.Failure? {
      return Failure(Fetch(fetched.error));
    }
    return Success(CurrentFrom(fetched.value, coords.value.name));
  }

  /** The response GetForecast works on, when locating and fetching succeed. */
  function ForecastResponse(location: string, escape: string -> string,
                            geocode: string -> Result<GeocodingResponse, string>,
                            weather: WeatherRequest -> Result<WeatherResponse, string>): (data: Option<WeatherResponse>)
    ensures data.Some? <==>
      Coordinates(location, escape, geocode).Success? &&
      weather(RequestFor(Coordinates(location, escape, geocode).value, 6)).Success?
  {
    match Coordinates(location, escape, geocode)
    case Failure(_) => None
    case Success(coords) =>
      match weather(RequestFor(coords, 6))
      case Failure(_) => None
      case Success(data) => Some(data)
  }

  /** GetForecast as written: fewer than two dates is "insufficient forecast
      data"; otherwise it reads entries 1 to 5 of every daily array, so the
      response must hold six of each (a shorter one is an index panic). */
  method GetForecast(location: string, escape: string -> string,
                     geocode: string -> Result<GeocodingResponse, string>,
                     weather: WeatherRequest -> Result<WeatherResponse, string>)
    returns (r: Result<Forecast, Error>)
    requires var data := ForecastResponse(location, escape, geocode, weather);
      data.Some? && |data.value.daily.time| >= 2 ==> FullDaily(data.value.daily)
    ensures var c := Coordinates(location, escape, geocode);
      var data := ForecastResponse(location, escape, geocode, weather);
      && (c.Failure? ==> r == Failure(c.error))
      && (c.Success? && data.None? ==> r == Failure(Fetch(weather(RequestFor(c.value, 6)).error)))
      && (r == Failure(InsufficientForecastData) <==> data.Some? && |data.value.daily.time| < 2)
      && (r.Success? <==> data.Some? && |data.value.daily.time| >= 2)
      && (r.Success? ==>
            && r.value.location == c.value.name
            && r.value.current == Some(CurrentFrom(data.value, c.value.name))
            && |r.value.dailyItems| == ForecastDays
            && forall i :: 0 <= i < ForecastDays ==> r.value.dailyItems[i] == DayAt(data.value.daily, i + 1))
  {
    var coords := GetCoordinates(location, escape, geocode);
    if coords.Failure? {
      return Failure(coords.error);
    }
    var fetched := weather(RequestFor(coords.value, 6));
    if fetched.Failure? {
      return Failure(Fetch(fetched.error));
    }
    var data := fetched.value;
    if |data.daily.time| < 2 {
      return Failure(InsufficientForecastData);
    }
    var items := DailyItems(data.daily);
    var current := CurrentFrom(data, coords.value.name);
    r := Success(Forecast(coords.value.name, Some(current), items));
  }

  /** The guard of GetForecast lets through responses its loop cannot read:
      two dates pass it, but the loop reads the sixth. */
  lemma ShortResponsePassesGuard()
    ensures var daily := DailyBlock(["2025-02-15", "2025-02-16"], [50.0, 52.0], [30.0, 31.0],
                                    [5.0, 6.0], [0, 3], [60, 70]);
      !(|daily.time| < 2) && !FullDaily(daily)
  {
  }

  /** GetForecast with the guard its loop needs: a response without six
      entries in every daily array is "insufficient forecast data", and no
      response makes it read past an array's end. */
  method GetForecastChecked(location: string, escape: string -> string,
                            geocode: string -> Result<GeocodingResponse, string>,
                            weather: WeatherRequest -> Result<WeatherResponse, string>)
    returns (r: Result<Forecast, Error>)
    ensures var c := Coordinates(location, escape, geocode);
      var data := ForecastResponse(location, escape, geocode, weather);
      && (c.Failure? ==> r == Failure(c.error))
      && (c.Success? && data.None? ==> r == Failure(Fetch(weather(RequestFor(c.value, 6)).error)))
      && (r == Failure(InsufficientForecastData) <==> data.Some? && !FullDaily(data.value.daily))
      && (r.Success? <==> data.Some? && FullDaily(data.value.daily))
      && (r.Success? ==>
            && r.value.location == c.value.name
            && r.value.current == Some(CurrentFrom(data.value, c.value.name))
            && |r.value.dailyItems| == ForecastDays
            && forall i :: 0 <= i < ForecastDays ==> r.value.dailyItems[i] == DayAt(data.value.daily, i + 1))
  {
    var coords := GetCoordinates(location, escape, geocode);
    if coords.Failure? {
      return Failure(coords.error);
    }
    var fetched := weather(RequestFor(coords.value, 6));
    if fetched.Failure? {
      return Failure(Fetch(fetched.error));
    }
    var data := fetched.value;
    if !FullDaily(data.daily) {
      return Failure(InsufficientForecastData);
    }
    var items := DailyItems(data.daily);
    var current := CurrentFrom(data, coords.value.name);
    r := Success(Forecast(coords.value.name, Some(current), items));
  }
}
