/**
 * The provider-independent data model of pkg/weather/provider.go, and the
 * domain errors both providers report.
 */
module Weather {
  import opened Wrappers

  /** Current conditions. Temperatures and wind are only copied and compared,
      so they are modelled as reals. */
  datatype CurrentWeather = CurrentWeather(
    location: string,
    conditions: string,
    temperature: real,
    feelsLike: real,
    tempMax: real,
    tempMin: real,
    humidity: int,
    windSpeed: real)

  /** One aggregated day. The date is kept as its "YYYY-MM-DD" text. */
  datatype DailyForecast = DailyForecast(
    date: string,
    conditions: string,
    high: real,
    low: real,
    windSpeed: real,
    humidity: int)

  /** A forecast; `current` is Go's nil-able *CurrentWeather. */
  datatype Forecast = Forecast(
    location: string,
    current: Option<CurrentWeather>,
    dailyItems: seq<DailyForecast>)

  /** Errors a provider returns. `Fetch` carries the message of a failed
      fetch (transport, HTTP status or JSON decoding), which the model does
      not look into. */
  datatype Error =
    | Fetch(detail: string)
    | NoWeatherData
    | NoForecastData
    | LocationNotFound(query: string)
    | InsufficientForecastData

  /** The text of each error, as the providers format it. */
  function Message(e: Error): string
  {
    match e
    case Fetch(detail) => detail
    case NoWeatherData => "no weather data available"
    case NoForecastData => "no forecast data available"
    case LocationNotFound(query) => "location not found: " + query
    case InsufficientForecastData => "insufficient forecast data available"
  }

  /** The errors the providers raise themselves are told apart by their
      text: different errors, or the same error for different locations,
      read differently. */
  lemma MessagesDistinct(e1: Error, e2: Error)
    requires !e1.Fetch? && !e2.Fetch? && e1 != e2
    ensures Message(e1) != Message(e2)
  {
    var m1, m2 := Message(e1), Message(e2);
    if e1.LocationNotFound? && e2.LocationNotFound? {
      var n := |"location not found: "|;
      assert m1[n..] == e1.query && m2[n..] == e2.query;
    } else if e1.LocationNotFound? || e2.LocationNotFound? {
      assert m1[0] != m2[0];
    } else {
      assert m1[0] != m2[0] || m1[3] != m2[3];
    }
  }
}
