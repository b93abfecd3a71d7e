/**
 * The OpenWeather provider (pkg/weather/openweather/provider.go): a key-based
 * REST API queried by zip code or by name. The HTTP fetch and the JSON
 * decoding are a parameter `fetch` from the request's source to the decoded
 * payload or an error message; everything after the decoding is modelled.
 */
module OpenWeather {
  import opened Wrappers
  import opened Text
  import opened Weather
  import Sorting

  // ---------------------------------------------------------------------
  // Decoded payloads. Fields the provider never reads are omitted.
  // ---------------------------------------------------------------------

  datatype MainBlock = MainBlock(
    temp: real,
    feelsLike: real,
    tempMin: real,
    tempMax: real,
    humidity: int)

  datatype WindBlock = WindBlock(speed: real)

  /** The current-weather payload; `weather` holds the descriptions of the
      `weather` array. */
  datatype WeatherData = WeatherData(
    weather: seq<string>,
    main: MainBlock,
    wind: WindBlock,
    name: string)

  /** One timestamped sample of the forecast payload; `dateText` is the
      "YYYY-MM-DD hh:mm:ss" text of `dt_txt`. */
  datatype ForecastSample = ForecastSample(
    main: MainBlock,
    weather: seq<string>,
    wind: WindBlock,
    dateText: string)

  datatype ForecastData = ForecastData(list: seq<ForecastSample>, cityName: string)

  datatype Provider = Provider(apiKey: string, useTestData: bool, debugMode: bool)

  /** Where fetchData reads a payload from: a canned file in test mode,
      the API otherwise. */
  datatype Source = TestFile(name: string) | Remote(url: string)

  // ---------------------------------------------------------------------
  // Requests
  // ---------------------------------------------------------------------

  const BaseURL := "http://api.openweathermap.org/data/2.5/"

  function Endpoint(forecast: bool): string {
    if forecast then "forecast" else "weather"
  }

  function QuerySuffix(apiKey: string): string {
    ",us&units=imperial&appid=" + apiKey
  }

  /** The query of a request: by zip exactly when the location is five
      digits, by escaped name otherwise; both forms fix the country, the units
      and the key. `escape` stands for url.QueryEscape. */
  function LocationQuery(apiKey: string, location: string, escape: string -> string): (query: string)
    ensures StartsWith(query, "zip=") <==> IsZip(location)
    ensures IsZip(location) ==> query == "zip=" + location + QuerySuffix(apiKey)
    ensures !IsZip(location) ==> query == "q=" + escape(location) + QuerySuffix(apiKey)
  {
    if IsZip(location) then
      var query := "zip=" + location + QuerySuffix(apiKey);
      assert query[..4] == "zip=";
      query
    else
      var query := "q=" + escape(location) + QuerySuffix(apiKey);
      assert query[0] == 'q';
      query
  }

  /** The request URL: the endpoint is `forecast` exactly when asked for,
      and the query follows the question mark. */
  function BuildURL(p: Provider, location: string, forecast: bool, escape: string -> string): (url: string)
    ensures StartsWith(url, BaseURL + "forecast?") <==> forecast
    ensures StartsWith(url, BaseURL + "weather?") <==> !forecast
    ensures |url| > |BaseURL + Endpoint(forecast)|
    ensures url[|BaseURL + Endpoint(forecast)| + 1..] == LocationQuery(p.apiKey, location, escape)
  {
    var query := LocationQuery(p.apiKey, location, escape);
    EndpointPrefixes(forecast, query);
    BaseURL + Endpoint(forecast) + "?" + query
  }

  /** The endpoint part of a request URL identifies the endpoint, and the
      query follows its question mark. */
  lemma EndpointPrefixes(forecast: bool, query: string)
    ensures var url := BaseURL + Endpoint(forecast) + "?" + query;
      && (StartsWith(url, BaseURL + "forecast?") <==> forecast)
      && (StartsWith(url, BaseURL + "weather?") <==> !forecast)
      && url[|BaseURL + Endpoint(forecast)| + 1..] == query
  {
    var url := BaseURL + Endpoint(forecast) + "?" + query;
    assert url[|BaseURL|] == Endpoint(forecast)[0];
    assert (BaseURL + "forecast?")[|BaseURL|] == 'f';
    assert (BaseURL + "weather?")[|BaseURL|] == 'w';
    assert forecast ==> url[..|BaseURL + "forecast?"|] == BaseURL + "forecast?";
    assert !forecast ==> url[..|BaseURL + "weather?"|] == BaseURL + "weather?";
  }

  /** The source fetchData reads: a fixed file name in test mode, the built
      URL otherwise. */
  function SourceFor(p: Provider, location: string, forecast: bool, escape: string -> string): (src: Source)
    ensures src.TestFile? <==> p.useTestData
    ensures src.TestFile? ==> src.name == (if forecast then "weather.forecast.json" else "weather.weather.json")
    ensures src.Remote? ==> src.url == BuildURL(p, location, forecast, escape)
  {
    if p.useTestData then
      TestFile(if forecast then "weather.forecast.json" else "weather.weather.json")
    else
      Remote(BuildURL(p, location, forecast, escape))
  }

  // ---------------------------------------------------------------------
  // Current weather
  // ---------------------------------------------------------------------

  /** GetCurrentWeather: a failed fetch is passed on, an empty `weather`
      array is "no weather data available", and otherwise the fields are
      copied from the payload, the conditions from its first description. */
  function GetCurrentWeather(p: Provider, location: string, escape: string -> string,
                             fetch: Source -> Result<WeatherData, string>): (r: Result<CurrentWeather, Error>)
    ensures var f := fetch(SourceFor(p, location, false, escape));
      && (f.Failure? ==> r == Failure(Fetch(f.error)))
      && (r == Failure(NoWeatherData) <==> f.Success? && |f.value.weather| == 0)
      && (r.Success? <==> f.Success? && |f.value.weather| > 0)
      && (r.Success? ==> var data := f.value;
            r.value == CurrentWeather(data.name, data.weather[0], data.main.temp, data.main.feelsLike,
                                      data.main.tempMax, data.main.tempMin, data.main.humidity, data.wind.speed))
  {
    match fetch(SourceFor(p, location, false, escape))
    case Failure(msg) => Failure(Fetch(msg))
    case Success(data) =>
      if |data.weather| == 0 then Failure(NoWeatherData)
      else Success(CurrentWeather(
        location := data.name,
        conditions := data.weather[0],
        temperature := data.main.temp,
        feelsLike := data.main.feelsLike,
        tempMax := data.main.tempMax,
        tempMin := data.main.tempMin,
        humidity := data.main.humidity,
        windSpeed := data.wind.speed))
  }

  /** getCurrentFromForecast: nil when there is no first sample or it has no
      description, otherwise the first sample under the city's name. */
  function CurrentFromForecast(data: ForecastData): (r: Option<CurrentWeather>)
    ensures r.None? <==> |data.list| == 0 || |data.list[0].weather| == 0
    ensures r.Some? ==> var first := data.list[0];
      r.value == CurrentWeather(data.cityName, first.weather[0], first.main.temp, first.main.feelsLike,
                                first.main.tempMax, first.main.tempMin, first.main.humidity, first.wind.speed)
  {
    if |data.list| == 0 || |data.list[0].weather| == 0 then None
    else
      var first := data.list[0];
      Some(CurrentWeather(
        location := data.cityName,
        conditions := first.weather[0],
        temperature := first.main.temp,
        feelsLike := first.main.feelsLike,
        tempMax := first.main.tempMax,
        tempMin := first.main.tempMin,
        humidity := first.main.humidity,
        windSpeed := first.wind.speed))
  }

  // ---------------------------------------------------------------------
  // Daily aggregation: what each output day is, stated declaratively
  // ---------------------------------------------------------------------

  /** The timestamp splits on " " into the two pieces the source indexes
      unconditionally; HasTimeIffSpace: it holds a space. */
  predicate HasTime(x: ForecastSample) {
    |Split(x.dateText, ' ')| >= 2
  }

  lemma HasTimeIffSpace(x: ForecastSample)
    ensures HasTime(x) <==> ' ' in x.dateText
  {
    SplitShape(x.dateText, ' ');
  }

  /** Every timestamp has a time part. */
  predicate Timestamped(list: seq<ForecastSample>) {
    forall k :: 0 <= k < |list| ==> HasTime(list[k])
  }

  /** The date: the text before the first space. */
  function DateOf(x: ForecastSample): string {
    Split(x.dateText, ' ')[0]
  }

  /** The hour: the text of the second space-separated piece up to its
      first colon. */
  function HourOf(x: ForecastSample): string
    requires HasTime(x)
  {
    Split(Split(x.dateText, ' ')[1], ':')[0]
  }

  /** A sample is kept unless its hour sorts below "06". */
  predicate Retained(x: ForecastSample)
    requires HasTime(x)
  {
    !LexLess(HourOf(x), "06")
  }

  predicate IsNoon(x: ForecastSample) {
    Contains(x.dateText, "12:00:00")
  }

  /** The retained samples dated `d`, in list order. */
  function DaySamples(list: seq<ForecastSample>, d: string): seq<ForecastSample>
    requires Timestamped(list)
  {
    if list == [] then []
    else
      var x := list[|list| - 1];
      var earlier := DaySamples(list[..|list| - 1], d);
      if Retained(x) && DateOf(x) == d then earlier + [x] else earlier
  }

  /** The dates of the retained samples. */
  function RetainedDates(list: seq<ForecastSample>): set<string>
    requires Timestamped(list)
  {
    if list == [] then {}
    else
      var x := list[|list| - 1];
      RetainedDates(list[..|list| - 1]) + (if Retained(x) then {DateOf(x)} else {})
  }

  const HighSeed: real := -1000.0
  const LowSeed: real := 1000.0
  const WindSeed: real := 0.0

  function DayHigh(xs: seq<ForecastSample>): real {
    if xs == [] then HighSeed
    else
      var h := DayHigh(xs[..|xs| - 1]);
      var t := xs[|xs| - 1].main.tempMax;
      if t > h then t else h
  }

  function DayLow(xs: seq<ForecastSample>): real {
    if xs == [] then LowSeed
    else
      var l := DayLow(xs[..|xs| - 1]);
      var t := xs[|xs| - 1].main.tempMin;
      if t < l then t else l
  }

  function DayWind(xs: seq<ForecastSample>): real {
    if xs == [] then WindSeed
    else
      var w := DayWind(xs[..|xs| - 1]);
      var s := xs[|xs| - 1].wind.speed;
      if s > w then s else w
  }

  /** The index of the last noon sample, if there is one. */
  function LastNoon(xs: seq<ForecastSample>): (r: Option<nat>)
    ensures r.Some? ==> r.value < |xs| && IsNoon(xs[r.value])
    ensures r.Some? ==> forall j :: r.value < j < |xs| ==> !IsNoon(xs[j])
    ensures r.None? ==> forall j :: 0 <= j < |xs| ==> !IsNoon(xs[j])
  {
    if xs == [] then None
    else if IsNoon(xs[|xs| - 1]) then Some(|xs| - 1)
    else LastNoon(xs[..|xs| - 1])
  }

  /** The sample a day's description and humidity come from: the last noon
      sample, or the first sample when there is no noon sample. */
  function Representative(xs: seq<ForecastSample>): ForecastSample
    requires xs != []
  {
    match LastNoon(xs)
    case Some(k) => xs[k]
    case None => xs[0]
  }

  /** The samples whose description the source reads have one: the first
      sample of the day and every noon sample. */
  predicate ConditionsReadable(xs: seq<ForecastSample>) {
    && (xs != [] ==> |xs[0].weather| > 0)
    && forall k :: 0 <= k < |xs| && IsNoon(xs[k]) ==> |xs[k].weather| > 0
  }

  /** The input processForecastData handles without an index panic. */
  ghost predicate Processable(list: seq<ForecastSample>) {
    Timestamped(list) && forall d :: ConditionsReadable(DaySamples(list, d))
  }

  /** The output record for date `d` with retained samples `xs`. */
  function DaySummary(d: string, xs: seq<ForecastSample>): DailyForecast
    requires xs != [] && ConditionsReadable(xs)
  {
    var rep := Representative(xs);
    assert |rep.weather| > 0 by {
      if LastNoon(xs).Some? {
        assert IsNoon(xs[LastNoon(xs).value]);
      }
    }
    DailyForecast(d, rep.weather[0], DayHigh(xs), DayLow(xs), DayWind(xs), rep.main.humidity)
  }

  /** The complete specification of processForecastData: one record per
      retained date, strictly ascending by date, each the summary of its
      date's retained samples. */
  ghost predicate Aggregates(list: seq<ForecastSample>, days: seq<DailyForecast>)
    requires Processable(list)
  {
    && (forall i, j :: 0 <= i < j < |days| ==> LexLess(days[i].date, days[j].date))
    && |days| == |RetainedDates(list)|
    && (forall k :: 0 <= k < |days| ==> days[k].date in RetainedDates(list))
    && (forall d :: d in RetainedDates(list) ==> exists k :: 0 <= k < |days| && days[k].date == d)
    && (forall k :: 0 <= k < |days| ==>
          DaySamples(list, days[k].date) != [] &&
          days[k] == DaySummary(days[k].date, DaySamples(list, days[k].date)))
  }

  // ---------------------------------------------------------------------
  // Daily aggregation: the source's loop
  // ---------------------------------------------------------------------

  /** The per-date accumulator (the source's dailyData record). */
  datatype DayAcc = DayAcc(high: real, low: real, description: string, windSpeed: real, humidity: int)

  /** What the accumulator holds once the samples `xs` of a date are seen. */
  function AccOf(xs: seq<ForecastSample>): DayAcc
    requires xs != [] && ConditionsReadable(xs)
  {
    var s := DaySummary("", xs);
    DayAcc(s.high, s.low, s.conditions, s.windSpeed, s.humidity)
  }

  /** The record a new date starts from: the seeds, with the opening
      sample's description and humidity. */
  function Opening(x: ForecastSample): DayAcc
    requires |x.weather| > 0
  {
    DayAcc(HighSeed, LowSeed, x.weather[0], WindSeed, x.main.humidity)
  }

  /** One retained sample folded into its date's record: the high and the
      wind speed rise to the sample's, the low falls to it, and a noon sample
      sets the description and humidity. */
  function Absorb(acc: DayAcc, x: ForecastSample): DayAcc
    requires IsNoon(x) ==> |x.weather| > 0
  {
    DayAcc(
      if x.main.tempMax > acc.high then x.main.tempMax else acc.high,
      if x.main.tempMin < acc.low then x.main.tempMin else acc.low,
      if IsNoon(x) then x.weather[0] else acc.description,
      if x.wind.speed > acc.windSpeed then x.wind.speed else acc.windSpeed,
      if IsNoon(x) then x.main.humidity else acc.humidity)
  }

  /** processForecastData: groups the retained samples by date into running
      maxima and minima, lets noon samples set the description and humidity,
      and emits the dates in ascending order. */
  method ProcessForecastData(list: seq<ForecastSample>) returns (days: seq<DailyForecast>)
    requires Processable(list)
    ensures Aggregates(list, days)
  {
    var daily := AccumulateDays(list);
    var dates := SortedDates(daily);
    days := EmitDays(dates, daily);
    EmittedDaysCover(list, daily, dates, days);
    EmittedDaysSummarise(list, daily, dates, days);
  }

  /** Every retained date has its record among the emitted days. */
  lemma EmittedDaysCover(list: seq<ForecastSample>, daily: map<string, DayAcc>,
                         dates: seq<string>, days: seq<DailyForecast>)
    requires Processable(list) && daily.Keys == RetainedDates(list)
    requires forall d :: d in daily <==> d in dates
    requires |days| == |dates| && forall k :: 0 <= k < |days| ==> days[k].date == dates[k]
    ensures forall d :: d in RetainedDates(list) ==> exists k :: 0 <= k < |days| && days[k].date == d
  {
    forall d | d in RetainedDates(list)
      ensures exists k :: 0 <= k < |days| && days[k].date == d
    {
      assert d in dates;
      var k :| 0 <= k < |dates| && dates[k] == d;
      assert days[k].date == d;
    }
  }

  /** Emitting the accumulators of strictly ascending retained dates yields
      the records the specification asks for. */
  lemma EmittedDaysSummarise(list: seq<ForecastSample>, daily: map<string, DayAcc>,
                             dates: seq<string>, days: seq<DailyForecast>)
    requires Processable(list) && daily.Keys == RetainedDates(list)
    requires forall d :: d in daily ==>
      DaySamples(list, d) != [] && ConditionsReadable(DaySamples(list, d)) &&
      daily[d] == AccOf(DaySamples(list, d))
    requires |dates| == |daily| && forall d :: d in daily <==> d in dates
    requires forall i, j :: 0 <= i < j < |dates| ==> LexLess(dates[i], dates[j])
    requires |days| == |dates|
    requires forall k :: 0 <= k < |days| ==>
      var acc := daily[dates[k]];
      days[k] == DailyForecast(dates[k], acc.description, acc.high, acc.low, acc.windSpeed, acc.humidity)
    requires forall d :: d in RetainedDates(list) ==> exists k :: 0 <= k < |days| && days[k].date == d
    ensures Aggregates(list, days)
  {
    forall k | 0 <= k < |days|
      ensures days[k].date in RetainedDates(list)
      ensures DaySamples(list, days[k].date) != []
      ensures days[k] == DaySummary(days[k].date, DaySamples(list, days[k].date))
    {
      assert dates[k] in dates;
    }
  }

  /** The first loop of processForecastData: skips samples before 06:00 and
      folds each retained sample into the accumulator of its date. */
  method AccumulateDays(list: seq<ForecastSample>) returns (daily: map<string, DayAcc>)
    requires Processable(list)
    ensures daily.Keys == RetainedDates(list)
    ensures forall d :: d in daily ==>
      DaySamples(list, d) != [] && ConditionsReadable(DaySamples(list, d)) &&
      daily[d] == AccOf(DaySamples(list, d))
  {
    daily := map[];
    for i := 0 to |list|
      invariant Tracks(daily, list[..i])
    {
      var item := list[i];
      var date := Split(item.dateText, ' ')[0];
      var time := Split(item.dateText, ' ')[1];
      var hour := Split(time, ':')[0];
      assert date == DateOf(item) && hour == HourOf(item);
      if LexLess(hour, "06") {
        TracksSkip(list, i, daily);
        continue;
      }
      RetainedReady(list, i, daily);
      ghost var before := daily;
      daily := AddSample(daily, date, item);
      FoldedRecord(list, i, before, daily);
      TracksAdd(list, i, before, daily);
    }
    assert list[..|list|] == list;
  }

  /** Before a retained sample is folded in: a date without a record yet
      has no earlier samples, so the sample opens its date and must be
      readable, as must a noon sample. */
  lemma RetainedReady(list: seq<ForecastSample>, i: nat, daily: map<string, DayAcc>)
    requires Timestamped(list) && i < |list| && Retained(list[i])
    requires ConditionsReadable(DaySamples(list, DateOf(list[i])))
    requires Tracks(daily, list[..i])
    ensures DateOf(list[i]) !in daily ==> |list[i].weather| > 0
    ensures IsNoon(list[i]) ==> |list[i].weather| > 0
  {
    var done, next, x := list[..i], list[..i + 1], list[i];
    PrefixSnoc(list, i);
    DaySamplesSnoc(done, next, x);
    DaySamplesPrefix(list, i + 1, DateOf(x));
    AccStep(DaySamples(done, DateOf(x)), x);
    RetainedDatesHaveSamples(done, DateOf(x));
  }

  /** A retained sample replaces the accumulator of its date. */
  lemma TracksAdd(list: seq<ForecastSample>, i: nat, before: map<string, DayAcc>, after: map<string, DayAcc>)
    requires Timestamped(list) && i < |list| && Retained(list[i])
    requires Tracks(before, list[..i])
    requires ConditionsReadable(DaySamples(list[..i], DateOf(list[i])) + [list[i]])
    requires after.Keys == before.Keys + {DateOf(list[i])}
    requires after[DateOf(list[i])] == AccOf(DaySamples(list[..i], DateOf(list[i])) + [list[i]])
    requires forall d :: d in before && d != DateOf(list[i]) ==> after[d] == before[d]
    ensures Tracks(after, list[..i + 1])
  {
    SnocDates(list, i);
    forall d | d in after
      ensures DaySamples(list[..i + 1], d) != [] && ConditionsReadable(DaySamples(list[..i + 1], d))
      ensures after[d] == AccOf(DaySamples(list[..i + 1], d))
    {
      SnocSamples(list, i, d);
    }
  }

  /** The retained dates of a one-longer prefix gain the new sample's date
      if it is retained. */
  lemma SnocDates(list: seq<ForecastSample>, i: nat)
    requires Timestamped(list) && i < |list|
    ensures RetainedDates(list[..i + 1]) ==
      RetainedDates(list[..i]) + (if Retained(list[i]) then {DateOf(list[i])} else {})
  {
    PrefixSnoc(list, i);
    assert list[..i + 1][..i] == list[..i];
  }

  /** The samples of date `d` in a one-longer prefix gain the new sample if
      it is retained and dated `d`. */
  lemma SnocSamples(list: seq<ForecastSample>, i: nat, d: string)
    requires Timestamped(list) && i < |list|
    ensures DaySamples(list[..i + 1], d) ==
      if Retained(list[i]) && DateOf(list[i]) == d then DaySamples(list[..i], d) + [list[i]]
      else DaySamples(list[..i], d)
  {
    PrefixSnoc(list, i);
    assert list[..i + 1][..i] == list[..i];
  }

  /** The folded record of the sample's date is the accumulator of that
      date's samples up to and including it. */
  lemma FoldedRecord(list: seq<ForecastSample>, i: nat, before: map<string, DayAcc>, after: map<string, DayAcc>)
    requires Timestamped(list) && i < |list| && Retained(list[i])
    requires ConditionsReadable(DaySamples(list, DateOf(list[i])))
    requires Tracks(before, list[..i])
    requires DateOf(list[i]) !in before ==> |list[i].weather| > 0
    requires IsNoon(list[i]) ==> |list[i].weather| > 0
    requires DateOf(list[i]) in after
    requires after[DateOf(list[i])] ==
      Absorb(if DateOf(list[i]) in before then before[DateOf(list[i])] else Opening(list[i]), list[i])
    ensures ConditionsReadable(DaySamples(list[..i], DateOf(list[i])) + [list[i]])
    ensures after[DateOf(list[i])] == AccOf(DaySamples(list[..i], DateOf(list[i])) + [list[i]])
  {
    var done, next, x := list[..i], list[..i + 1], list[i];
    var date := DateOf(x);
    var xs := DaySamples(done, date);
    PrefixSnoc(list, i);
    DaySamplesSnoc(done, next, x);
    DaySamplesPrefix(list, i + 1, date);
    assert ConditionsReadable(xs + [x]);
    AccStep(xs, x);
    RetainedDatesHaveSamples(done, date);
  }

  /** The loop body of processForecastData for a retained sample: creates
      the record of its date from the sample when the date is new, raises the
      high and the wind speed, lowers the low, and lets a noon sample set the
      description and humidity. */
  method AddSample(daily: map<string, DayAcc>, date: string, item: ForecastSample)
    returns (updated: map<string, DayAcc>)
    requires date !in daily ==> |item.weather| > 0
    requires IsNoon(item) ==> |item.weather| > 0
    ensures updated.Keys == daily.Keys + {date}
    ensures forall d :: d in daily && d != date ==> updated[d] == daily[d]
    ensures updated[date] == Absorb(if date in daily then daily[date] else Opening(item), item)
  {
    updated := daily;
    if date !in updated {
      updated := updated[date := DayAcc(HighSeed, LowSeed, item.weather[0], WindSeed, item.main.humidity)];
    }
    var day := updated[date];
    if item.main.tempMax > day.high {
      day := day.(high := item.main.tempMax);
    }
    if item.main.tempMin < day.low {
      day := day.(low := item.main.tempMin);
    }
    if item.wind.speed > day.windSpeed {
      day := day.(windSpeed := item.wind.speed);
    }
    if Contains(item.dateText, "12:00:00") {
      day := day.(description := item.weather[0], humidity := item.main.humidity);
    }
    updated := updated[date := day];
  }

  /** The dates slice of processForecastData: every key of the map, sorted
      with sort.Strings. Keys are distinct, so the order is strict. */
  method SortedDates(daily: map<string, DayAcc>) returns (dates: seq<string>)
    ensures |dates| == |daily|
    ensures forall d :: d in daily <==> d in dates
    ensures forall i, j :: 0 <= i < j < |dates| ==> LexLess(dates[i], dates[j])
  {
    var a := CollectDates(daily);
    ghost var collected := a[..];
    Sorting.SortStrings(a);
    dates := a[..];
    DistinctPermutation(collected, dates);
    StrictlyAscending(dates);
    forall d
      ensures d in daily <==> d in dates
    {
      assert d in collected <==> d in multiset(collected);
    }
  }

  /** The keys of the map, each once, in a fresh array in no particular order. */
  method CollectDates(daily: map<string, DayAcc>) returns (a: array<string>)
    ensures fresh(a)
    ensures a.Length == |daily|
    ensures Distinct(a[..])
    ensures forall d :: d in daily <==> d in a[..]
  {
    a := new string[|daily|];
    var rest := daily.Keys;
    var n := 0;
    while rest != {}
      invariant rest <= daily.Keys
      invariant n + |rest| == a.Length
      invariant forall k :: 0 <= k < n ==> a[k] in daily && a[k] !in rest
      invariant Distinct(a[..n])
      invariant forall d :: d in daily ==> d in rest || d in a[..n]
      decreases rest
    {
      var date :| date in rest;
      a[n] := date;
      assert a[..n + 1] == a[..n] + [date];
      n := n + 1;
      rest := rest - {date};
    }
    assert a[..n] == a[..];
  }

  /** The last loop of processForecastData: one record per date, in order. */
  method EmitDays(dates: seq<string>, daily: map<string, DayAcc>) returns (days: seq<DailyForecast>)
    requires forall k :: 0 <= k < |dates| ==> dates[k] in daily
    ensures |days| == |dates|
    ensures forall k :: 0 <= k < |days| ==>
      var acc := daily[dates[k]];
      days[k] == DailyForecast(dates[k], acc.description, acc.high, acc.low, acc.windSpeed, acc.humidity)
  {
    days := [];
    for k := 0 to |dates|
      invariant |days| == k
      invariant forall m :: 0 <= m < k ==>
        var acc := daily[dates[m]];
        days[m] == DailyForecast(dates[m], acc.description, acc.high, acc.low, acc.windSpeed, acc.humidity)
    {
      var day := daily[dates[k]];
      days := days + [DailyForecast(dates[k], day.description, day.high, day.low, day.windSpeed, day.humidity)];
    }
  }

  /** GetForecast: a failed fetch is passed on, an empty sample list is
      "no forecast data available", and otherwise the forecast carries the
      city's name, the first sample as current weather and the aggregated days. */
  method GetForecast(p: Provider, location: string, escape: string -> string,
                     fetch: Source -> Result<ForecastData, string>) returns (r: Result<Forecast, Error>)
    requires var f := fetch(SourceFor(p, location, true, escape));
      f.Success? && |f.value.list| > 0 ==> Processable(f.value.list)
    ensures var f := fetch(SourceFor(p, location, true, escape));
      && (f.Failure? ==> r == Failure(Fetch(f.error)))
      && (r == Failure(NoForecastData) <==> f.Success? && |f.value.list| == 0)
      && (r.Success? <==> f.Success? && |f.value.list| > 0)
      && (r.Success? ==>
            && r.value.location == f.value.cityName
            && r.value.current == CurrentFromForecast(f.value)
            && Aggregates(f.value.list, r.value.dailyItems))
  {
    var fetched := fetch(SourceFor(p, location, true, escape));
    if fetched.Failure? {
      return Failure(Fetch(fetched.error));
    }
    var data := fetched.value;
    if |data.list| == 0 {
      return Failure(NoForecastData);
    }
    var current := CurrentFromForecast(data);
    var days := ProcessForecastData(data.list);
    r := Success(Forecast(data.cityName, current, days));
  }

  // ---------------------------------------------------------------------
  // Properties of the daily aggregation
  // ---------------------------------------------------------------------

  /** A day's high is the largest of -1000 and its samples' maxima. */
  lemma {:induction false} DayHighIsMaximum(xs: seq<ForecastSample>)
    ensures HighSeed <= DayHigh(xs)
    ensures forall k :: 0 <= k < |xs| ==> xs[k].main.tempMax <= DayHigh(xs)
    ensures DayHigh(xs) == HighSeed || exists k :: 0 <= k < |xs| && DayHigh(xs) == xs[k].main.tempMax
  {
    if xs != [] {
      var init := xs[..|xs| - 1];
      DayHighIsMaximum(init);
      assert forall k :: 0 <= k < |init| ==> xs[k] == init[k];
    }
  }

  /** A day's low is the smallest of 1000 and its samples' minima. */
  lemma {:induction false} DayLowIsMinimum(xs: seq<ForecastSample>)
    ensures DayLow(xs) <= LowSeed
    ensures forall k :: 0 <= k < |xs| ==> DayLow(xs) <= xs[k].main.tempMin
    ensures DayLow(xs) == LowSeed || exists k :: 0 <= k < |xs| && DayLow(xs) == xs[k].main.tempMin
  {
    if xs != [] {
      var init := xs[..|xs| - 1];
      DayLowIsMinimum(init);
      assert forall k :: 0 <= k < |init| ==> xs[k] == init[k];
    }
  }

  /** A day's wind speed is the largest of 0 and its samples' speeds. */
  lemma {:induction false} DayWindIsMaximum(xs: seq<ForecastSample>)
    ensures WindSeed <= DayWind(xs)
    ensures forall k :: 0 <= k < |xs| ==> xs[k].wind.speed <= DayWind(xs)
    ensures DayWind(xs) == WindSeed || exists k :: 0 <= k < |xs| && DayWind(xs) == xs[k].wind.speed
  {
    if xs != [] {
      var init := xs[..|xs| - 1];
      DayWindIsMaximum(init);
      assert forall k :: 0 <= k < |init| ==> xs[k] == init[k];
    }
  }

  /** When every sample's minimum is at most its maximum, so is the day's. */
  lemma HighNotBelowLow(xs: seq<ForecastSample>)
    requires xs != []
    requires forall k :: 0 <= k < |xs| ==> xs[k].main.tempMin <= xs[k].main.tempMax
    ensures DayLow(xs) <= DayHigh(xs)
  {
    DayHighIsMaximum(xs);
    DayLowIsMinimum(xs);
    assert DayLow(xs) <= xs[0].main.tempMin <= xs[0].main.tempMax <= DayHigh(xs);
  }

  /** A day's description and humidity come from its last noon sample when
      it has one, and from its first sample otherwise. */
  lemma RepresentativeIsLastNoonOrFirst(xs: seq<ForecastSample>)
    requires xs != []
    ensures (exists k :: 0 <= k < |xs| && IsNoon(xs[k])) ==>
      exists k :: 0 <= k < |xs| && Representative(xs) == xs[k] && IsNoon(xs[k]) &&
        forall j :: k < j < |xs| ==> !IsNoon(xs[j])
    ensures (forall k :: 0 <= k < |xs| ==> !IsNoon(xs[k])) ==> Representative(xs) == xs[0]
  {
    match LastNoon(xs)
    case Some(k) =>
      assert Representative(xs) == xs[k];
    case None =>
  }

  lemma {:induction false} DaySamplesAppend(a: seq<ForecastSample>, b: seq<ForecastSample>, d: string)
    requires Timestamped(a) && Timestamped(b)
    ensures Timestamped(a + b)
    ensures DaySamples(a + b, d) == DaySamples(a, d) + DaySamples(b, d)
    decreases |b|
  {
    TimestampedAppend(a, b);
    if b == [] {
      assert a + b == a;
    } else {
      var init, x := b[..|b| - 1], b[|b| - 1];
      assert (a + b)[..|a + b| - 1] == a + init;
      assert (a + b)[|a + b| - 1] == x;
      DaySamplesLast(b, d);
      DaySamplesLast(a + b, d);
      DaySamplesAppend(a, init, d);
      var last := if Retained(x) && DateOf(x) == d then [x] else [];
      assert (DaySamples(a, d) + DaySamples(init, d)) + last
          == DaySamples(a, d) + (DaySamples(init, d) + last);
    }
  }

  /** DaySamples peels off the last sample. */
  lemma DaySamplesLast(list: seq<ForecastSample>, d: string)
    requires Timestamped(list) && list != []
    ensures Timestamped(list[..|list| - 1])
    ensures var x := list[|list| - 1];
      DaySamples(list, d) ==
        DaySamples(list[..|list| - 1], d) + (if Retained(x) && DateOf(x) == d then [x] else [])
  {
    TimestampedInit(list);
  }

  lemma TimestampedInit(b: seq<ForecastSample>)
    requires Timestamped(b) && b != []
    ensures Timestamped(b[..|b| - 1])
  {
    var init := b[..|b| - 1];
    forall k | 0 <= k < |init|
      ensures HasTime(init[k])
    {
      assert init[k] == b[k];
    }
  }

  lemma TimestampedAppend(a: seq<ForecastSample>, b: seq<ForecastSample>)
    requires Timestamped(a) && Timestamped(b)
    ensures Timestamped(a + b)
  {
    forall k | 0 <= k < |a + b|
      ensures HasTime((a + b)[k])
    {
      if k < |a| {
        assert (a + b)[k] == a[k];
      } else {
        assert (a + b)[k] == b[k - |a|];
      }
    }
  }

  lemma {:induction false} RetainedDatesAppend(a: seq<ForecastSample>, b: seq<ForecastSample>)
    requires Timestamped(a) && Timestamped(b)
    ensures Timestamped(a + b)
    ensures RetainedDates(a + b) == RetainedDates(a) + RetainedDates(b)
    decreases |b|
  {
    if b == [] {
      assert a + b == a;
    } else {
      var init := b[..|b| - 1];
      RetainedDatesAppend(a, init);
      assert (a + b)[..|a + b| - 1] == a + init;
      assert (a + b)[|a + b| - 1] == b[|b| - 1];
    }
  }

  /** A sample whose hour sorts below "06" changes no day: the list without
      it, wherever it stands, has the same retained dates and the same
      samples for every date, hence the same aggregated output. */
  lemma EarlySampleIgnored(left: seq<ForecastSample>, x: ForecastSample, right: seq<ForecastSample>)
    requires Processable(left + [x] + right) && HasTime(x) && !Retained(x)
    ensures Processable(left + right)
    ensures forall days :: Aggregates(left + [x] + right, days) <==> Aggregates(left + right, days)
  {
    var list := left + [x] + right;
    assert Timestamped(left) && Timestamped(right) by {
      assert forall k :: 0 <= k < |left| ==> list[k] == left[k];
      assert forall k :: 0 <= k < |right| ==> list[|left| + 1 + k] == right[k];
    }
    SkipSampleDates(left, x, right);
    forall d ensures DaySamples(left + right, d) == DaySamples(list, d) {
      SkipSampleDay(left, x, right, d);
    }
  }

  lemma SkipSampleDates(left: seq<ForecastSample>, x: ForecastSample, right: seq<ForecastSample>)
    requires Timestamped(left) && Timestamped(right) && HasTime(x) && !Retained(x)
    ensures Timestamped(left + [x] + right) && Timestamped(left + right)
    ensures RetainedDates(left + [x] + right) == RetainedDates(left + right)
  {
    assert [x][..0] == [];
    assert Timestamped([x]);
    assert RetainedDates([x]) == {};
    RetainedDatesAppend(left, [x]);
    RetainedDatesAppend(left + [x], right);
    RetainedDatesAppend(left, right);
  }

  lemma SkipSampleDay(left: seq<ForecastSample>, x: ForecastSample, right: seq<ForecastSample>, d: string)
    requires Timestamped(left) && Timestamped(right) && HasTime(x) && !Retained(x)
    ensures Timestamped(left + [x] + right) && Timestamped(left + right)
    ensures DaySamples(left + [x] + right, d) == DaySamples(left + right, d)
  {
    assert [x][..0] == [];
    assert Timestamped([x]);
    assert DaySamples([x], d) == [];
    DaySamplesAppend(left, [x], d);
    DaySamplesAppend(left + [x], right, d);
    DaySamplesAppend(left, right, d);
  }

  /** The specification of processForecastData fixes its output: two
      outputs that both meet it are equal. */
  lemma AggregatesUnique(list: seq<ForecastSample>, a: seq<DailyForecast>, b: seq<DailyForecast>)
    requires Processable(list) && Aggregates(list, a) && Aggregates(list, b)
    ensures a == b
  {
    SameDates(list, a, b);
    forall k | 0 <= k < |a|
      ensures a[k] == b[k]
    {
      var d := a[k].date;
      assert b[k].date == d;
      assert a[k] == DaySummary(d, DaySamples(list, d));
    }
  }

  function Dates(days: seq<DailyForecast>): (ds: seq<string>)
    ensures |ds| == |days| && forall k :: 0 <= k < |days| ==> ds[k] == days[k].date
  {
    seq(|days|, k requires 0 <= k < |days| => days[k].date)
  }

  lemma SameDates(list: seq<ForecastSample>, a: seq<DailyForecast>, b: seq<DailyForecast>)
    requires Processable(list) && Aggregates(list, a) && Aggregates(list, b)
    ensures |a| == |b| && forall k :: 0 <= k < |a| ==> a[k].date == b[k].date
  {
    DatesOfAggregates(list, a);
    DatesOfAggregates(list, b);
    AscendingSameElements(Dates(a), Dates(b));
  }

  lemma DatesOfAggregates(list: seq<ForecastSample>, days: seq<DailyForecast>)
    requires Processable(list) && Aggregates(list, days)
    ensures forall i, j :: 0 <= i < j < |days| ==> LexLess(Dates(days)[i], Dates(days)[j])
    ensures forall x :: x in Dates(days) <==> x in RetainedDates(list)
  {
    var ds := Dates(days);
    forall i, j | 0 <= i < j < |days| ensures LexLess(ds[i], ds[j]) {
      assert ds[i] == days[i].date && ds[j] == days[j].date;
    }
    forall x ensures x in ds <==> x in RetainedDates(list) {
      if x in ds {
        var k :| 0 <= k < |ds| && ds[k] == x;
        assert days[k].date == x;
      }
      if x in RetainedDates(list) {
        var j :| 0 <= j < |days| && days[j].date == x;
        assert ds[j] == x;
      }
    }
  }

  /** Two strictly ascending sequences with the same elements are equal. */
  lemma {:induction false} AscendingSameElements(s: seq<string>, t: seq<string>)
    requires forall i, j :: 0 <= i < j < |s| ==> LexLess(s[i], s[j])
    requires forall i, j :: 0 <= i < j < |t| ==> LexLess(t[i], t[j])
    requires forall x :: x in s <==> x in t
    ensures s == t
    decreases |s|
  {
    if s != [] {
      assert s[0] in s;
      var j :| 0 <= j < |t| && t[j] == s[0];
      assert t[0] in t;
      var i :| 0 <= i < |s| && s[i] == t[0];
      if j > 0 {
        if i > 0 {
          LexLessAsymmetric(s[0], t[0]);
        }
        assert false;
      }
      forall x ensures x in s[1..] <==> x in t[1..] {
        if x in s[1..] {
          TailMember(s, t, x);
        }
        if x in t[1..] {
          TailMember(t, s, x);
        }
      }
      AscendingSameElements(s[1..], t[1..]);
      assert s == [s[0]] + s[1..] && t == [t[0]] + t[1..];
    } else {
      NonEmptyShared(t, s);
    }
  }

  /** A non-empty sequence shares an element with any sequence of the same
      elements, which is therefore non-empty too. */
  lemma NonEmptyShared(t: seq<string>, s: seq<string>)
    requires forall x :: x in s <==> x in t
    ensures t != [] ==> s != []
  {
    if t != [] {
      assert t[0] in s;
    }
  }

  /** Of two strictly ascending sequences with the same elements and the same
      head, an element of one tail is in the other tail. */
  lemma TailMember(s: seq<string>, t: seq<string>, x: string)
    requires forall i, j :: 0 <= i < j < |s| ==> LexLess(s[i], s[j])
    requires forall x :: x in s <==> x in t
    requires s != [] && t != [] && s[0] == t[0] && x in s[1..]
    ensures x in t[1..]
  {
    var m :| 0 <= m < |s| - 1 && s[1..][m] == x;
    assert LexLess(s[0], s[m + 1]);
    LexLessIrreflexive(x);
    assert x in s;
    var n :| 0 <= n < |t| && t[n] == x;
    assert t[1..][n - 1] == x;
  }

  /** On two-digit hours, the lexicographic filter keeps exactly the hours
      from 06 on, numerically. */
  lemma HourFilterOnClockHours(h: string)
    requires |h| == 2 && IsDigit(h[0]) && IsDigit(h[1])
    ensures LexLess(h, "06") <==> 10 * (h[0] as int - '0' as int) + (h[1] as int - '0' as int) < 6
  {
    var z: string := "06";
    var t, six := h[1..], z[1..];
    assert z[0] == '0' && six == "6" && six[0] == '6' && six[1..] == [];
    assert t[0] == h[1] && t[1..] == [];
    if h[0] != '0' {
      assert LexLess(h, z) == (h[0] < '0');
    } else if h[1] != '6' {
      assert LexLess(h, z) == LexLess(t, six);
      assert LexLess(t, six) == (h[1] < '6');
    } else {
      assert LexLess(h, z) == LexLess(t, six);
      assert LexLess(t, six) == LexLess(t[1..], six[1..]);
    }
  }

  // ---------------------------------------------------------------------
  // Lemmas behind the loop
  // ---------------------------------------------------------------------

  /** A prefix one longer is the shorter prefix and the next element. */
  lemma PrefixSnoc(list: seq<ForecastSample>, i: nat)
    requires i < |list|
    ensures list[..i + 1] == list[..i] + [list[i]]
  {
  }

  predicate Distinct(s: seq<string>) {
    forall i, j :: 0 <= i < j < |s| ==> s[i] != s[j]
  }

  /** Appending one sample adds it to the samples of its date, if it is
      retained, and leaves every other date alone. */
  lemma DaySamplesSnoc(done: seq<ForecastSample>, next: seq<ForecastSample>, x: ForecastSample)
    requires Timestamped(next) && next == done + [x] && HasTime(x)
    ensures Timestamped(done)
    ensures RetainedDates(next) == RetainedDates(done) + (if Retained(x) then {DateOf(x)} else {})
    ensures forall d :: (DaySamples(next, d) ==
      if Retained(x) && DateOf(x) == d then DaySamples(done, d) + [x] else DaySamples(done, d))
  {
    assert next[..|next| - 1] == done;
  }

  /** `daily` holds, for every date seen in `done`, the accumulator of its samples. */
  ghost predicate Tracks(daily: map<string, DayAcc>, done: seq<ForecastSample>)
    requires Timestamped(done)
  {
    && daily.Keys == RetainedDates(done)
    && forall d :: d in daily ==>
         DaySamples(done, d) != [] && ConditionsReadable(DaySamples(done, d)) &&
         daily[d] == AccOf(DaySamples(done, d))
  }

  /** A skipped sample leaves the tracked state as it is. */
  lemma TracksSkip(list: seq<ForecastSample>, i: nat, daily: map<string, DayAcc>)
    requires Timestamped(list) && i < |list| && !Retained(list[i])
    requires Tracks(daily, list[..i])
    ensures Tracks(daily, list[..i + 1])
  {
    PrefixSnoc(list, i);
    DaySamplesSnoc(list[..i], list[..i + 1], list[i]);
  }

  /** A date has samples exactly when it is among the retained dates. */
  lemma {:induction false} RetainedDatesHaveSamples(list: seq<ForecastSample>, d: string)
    requires Timestamped(list)
    ensures d in RetainedDates(list) <==> DaySamples(list, d) != []
  {
    if list != [] {
      var done := list[..|list| - 1];
      RetainedDatesHaveSamples(done, d);
    }
  }

  /** The samples of a date in a prefix of the list are a prefix of its
      samples in the whole list, so they are readable too. */
  lemma DaySamplesPrefix(list: seq<ForecastSample>, j: nat, d: string)
    requires Timestamped(list) && ConditionsReadable(DaySamples(list, d)) && j <= |list|
    ensures ConditionsReadable(DaySamples(list[..j], d))
  {
    PrefixOfDaySamples(list, j, d);
    ReadablePrefix(DaySamples(list[..j], d), DaySamples(list, d));
  }

  lemma {:induction false} PrefixOfDaySamples(list: seq<ForecastSample>, j: nat, d: string)
    requires Timestamped(list) && j <= |list|
    ensures DaySamples(list[..j], d) <= DaySamples(list, d)
    decreases |list| - j
  {
    if j < |list| {
      PrefixOfDaySamples(list, j + 1, d);
      assert list[..j + 1][..j] == list[..j];
    } else {
      assert list[..j] == list;
    }
  }

  lemma ReadablePrefix(xs: seq<ForecastSample>, ys: seq<ForecastSample>)
    requires xs <= ys && ConditionsReadable(ys)
    ensures ConditionsReadable(xs)
  {
    assert forall k :: 0 <= k < |xs| ==> xs[k] == ys[k];
  }

  lemma DayHighSnoc(xs: seq<ForecastSample>, x: ForecastSample)
    ensures DayHigh(xs + [x]) == if x.main.tempMax > DayHigh(xs) then x.main.tempMax else DayHigh(xs)
  {
    assert (xs + [x])[..|xs|] == xs;
  }

  lemma DayLowSnoc(xs: seq<ForecastSample>, x: ForecastSample)
    ensures DayLow(xs + [x]) == if x.main.tempMin < DayLow(xs) then x.main.tempMin else DayLow(xs)
  {
    assert (xs + [x])[..|xs|] == xs;
  }

  lemma DayWindSnoc(xs: seq<ForecastSample>, x: ForecastSample)
    ensures DayWind(xs + [x]) == if x.wind.speed > DayWind(xs) then x.wind.speed else DayWind(xs)
  {
    assert (xs + [x])[..|xs|] == xs;
  }

  lemma RepresentativeSnoc(xs: seq<ForecastSample>, x: ForecastSample)
    ensures Representative(xs + [x]) == if IsNoon(x) || xs == [] then x else Representative(xs)
  {
    var ys := xs + [x];
    assert ys[..|xs|] == xs;
    if xs != [] && !IsNoon(x) {
      assert LastNoon(ys) == LastNoon(xs);
      match LastNoon(xs)
      case Some(k) => assert ys[k] == xs[k];
      case None => assert ys[0] == xs[0];
    }
  }

  /** One retained sample updates the accumulator of its date exactly as
      the source's loop body does. */
  lemma AccStep(xs: seq<ForecastSample>, x: ForecastSample)
    requires ConditionsReadable(xs + [x])
    ensures ConditionsReadable(xs)
    ensures xs == [] ==> |x.weather| > 0
    ensures IsNoon(x) ==> |x.weather| > 0
    ensures AccOf(xs + [x]) == Absorb(if xs == [] then Opening(x) else AccOf(xs), x)
  {
    ReadablePrefix(xs, xs + [x]);
    assert (xs + [x])[|xs|] == x;
    DayHighSnoc(xs, x);
    DayLowSnoc(xs, x);
    DayWindSnoc(xs, x);
    RepresentativeSnoc(xs, x);
  }

  lemma {:induction false} CountDistinct(s: seq<string>)
    requires Distinct(s)
    ensures forall x :: multiset(s)[x] <= 1
  {
    if s != [] {
      CountDistinct(s[1..]);
      assert s == [s[0]] + s[1..];
      assert s[0] !in s[1..];
    }
  }

  lemma CountRepeated(s: seq<string>, i: nat, j: nat)
    requires i < j < |s| && s[i] == s[j]
    ensures multiset(s)[s[i]] >= 2
  {
    assert s == s[..i] + [s[i]] + s[i + 1..j] + [s[j]] + s[j + 1..];
  }

  lemma DistinctPermutation(s: seq<string>, t: seq<string>)
    requires Distinct(s) && multiset(s) == multiset(t)
    ensures Distinct(t)
  {
    CountDistinct(s);
    forall i, j | 0 <= i < j < |t|
      ensures t[i] != t[j]
    {
      if t[i] == t[j] {
        CountRepeated(t, i, j);
      }
    }
  }

  lemma StrictlyAscending(s: seq<string>)
    requires Distinct(s) && Sorting.Ascending(s)
    ensures forall i, j :: 0 <= i < j < |s| ==> LexLess(s[i], s[j])
  {
  }
}
