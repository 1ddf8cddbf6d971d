/** The values the dashboard passes around: a current-weather reading, a
    five-day forecast, the outcome of one HTTP request and the three-way
    decision a fetcher makes about it. */
module Weather {

  datatype Option<T> = None | Some(value: T)

  /** One current-weather record, shaped like the weather API's JSON
      (`name`, `sys.country`, `sys.sunrise`, `sys.sunset`, `main.*`,
      `weather[0].description`, `weather[0].icon`, `wind.speed`, `cod`). */
  datatype WeatherReading = WeatherReading(
    name: string,
    country: string,
    sunrise: int,
    sunset: int,
    temp: real,
    feelsLike: real,
    humidity: int,
    pressure: int,
    tempMin: real,
    tempMax: real,
    description: string,
    icon: string,
    windSpeed: real,
    cod: int)

  /** The `weather[0]` object of a forecast slot. */
  datatype Condition = Condition(icon: string, description: string)

  /** One three-hour slot of a forecast (its `dt_txt` text is not modelled). */
  datatype ForecastSlot = ForecastSlot(
    dt: int,
    temp: real,
    tempMin: real,
    tempMax: real,
    humidity: int,
    weather: Condition,
    windSpeed: real)

  /** A forecast body: `cod`, `cnt`, `list` and `city.{name,country}`. */
  datatype ForecastReport = ForecastReport(
    cod: string,
    cnt: int,
    slots: seq<ForecastSlot>,
    cityName: string,
    country: string)

  /** What one `requests.get` call produced: a response with its status code
      and its body (`None` when the body is not valid JSON), a
      `requests.exceptions.Timeout`, or any other `RequestException`. */
  datatype HttpOutcome<T> =
    | Response(code: int, body: Option<T>)
    | Timeout
    | TransportError

  /** What a fetcher decides to hand back: the live body, nothing, or the
      demo record stored under `key`. */
  datatype Route<T> = Live(data: T) | NoData | Demo(key: string)

  /** The result of resolving a typed city name: the name to query and
      whether the Korean table translated it. */
  datatype Resolution = Resolution(name: string, converted: bool)
}
