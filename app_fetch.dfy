/** The four fetchers of app.py. Each turns the outcome of one request into
    one of three answers: the live body, nothing, or a demo record. The
    current-weather fetcher by city name never consults the health monitor;
    the other three ask it first and request live data only while it
    reports the key as active. */
module AppFetch {
  import opened Text
  import opened Weather
  import opened Lookup
  import opened Health
  import opened AppTables
  import opened AppForecast

  /** `city_name.strip() in ["김포", "김포시"]`: the names answered from the
      kimpo demo record before anything else happens. */
  predicate IsKimpoAlias(cityName: string) {
    Strip(cityName) == "김포" || Strip(cityName) == "김포시"
  }

  /** The status codes `raise_for_status()` turns into an `HTTPError`. */
  predicate IsHttpError(code: int) {
    400 <= code < 600
  }

  /** `get_weather_data(city_name)` of app.py, given the outcome of its one
      request. There is no demo fallback except for 김포 and a rejected key. */
  function WeatherRoute(cityName: string, resp: HttpOutcome<WeatherReading>): (r: Route<WeatherReading>)
    ensures IsKimpoAlias(cityName) ==> r == Demo("kimpo")
    ensures r.Demo? <==> IsKimpoAlias(cityName) || (resp.Response? && resp.code == 401)
    ensures r.Demo? && !IsKimpoAlias(cityName) ==> r.key == Resolve(CityMap, cityName).name
    ensures r.Live? <==>
      !IsKimpoAlias(cityName) && resp.Response? && !IsHttpError(resp.code) && resp.body.Some?
    ensures r.Live? ==> resp.Response? && resp.body == Some(r.data)
  {
    if IsKimpoAlias(cityName) then Demo("kimpo")
    else
      var english := Resolve(CityMap, cityName).name;
      match resp
      case Response(code, body) =>
        if code == 401 then Demo(english)
        else if code == 404 then NoData
        else if code == 429 then NoData
        else if IsHttpError(code) then NoData
        else if body.None? then NoData
        else Live(body.value)
      case Timeout => NoData
      case TransportError => NoData
  }

  /** The current-weather record a route hands back; a demo route finds the
      record case-insensitively or nothing. A bridge only:
      the route decides, and the fetch operations' contracts are stated
      through this function. */
  function DeliverWeather(route: Route<WeatherReading>): (r: Option<WeatherReading>)
    ensures route.Live? ==> r == Some(route.data)
    ensures route.NoData? ==> r == None
    ensures route.Demo? ==> (r.Some? <==> Lower(route.key) in DemoTable)
    ensures route.Demo? && r.Some? ==> r.value == DemoTable[Lower(route.key)]
  {
    match route
    case Live(data) => Some(data)
    case NoData => None
    case Demo(key) => DemoLookup(DemoTable, key)
  }

  /** What `get_weather_data(city_name)` returns: for a name that is no
      김포 alias, a response that is no HTTP error hands back its parsed
      body (nothing if it is not JSON), and a record comes back only from
      such a response or a rejected key. */
  function GetWeatherData(cityName: string, resp: HttpOutcome<WeatherReading>): (r: Option<WeatherReading>)
    ensures !IsKimpoAlias(cityName) && resp.Response? && !IsHttpError(resp.code) ==> r == resp.body
    ensures r.Some? && !IsKimpoAlias(cityName) ==>
      resp.Response? && (resp.code == 401 || !IsHttpError(resp.code))
  {
    DeliverWeather(WeatherRoute(cityName, resp))
  }

  /** 김포 and 김포시, padded or not, get the kimpo record whatever the
      request would have returned. */
  lemma KimpoWeatherFirst(cityName: string, resp: HttpOutcome<WeatherReading>)
    requires IsKimpoAlias(cityName)
    ensures GetWeatherData(cityName, resp) == Some(DemoTable["kimpo"])
  {
    assert WeatherRoute(cityName, resp) == Demo("kimpo");
    KimpoRecordFound();
  }

  /** A timeout, a transport failure, a body that is not JSON, and every
      HTTP error but 401 (so 404, 429, 500 ...) give nothing. */
  lemma WeatherFailuresGiveNothing(cityName: string, resp: HttpOutcome<WeatherReading>)
    requires !IsKimpoAlias(cityName)
    requires !resp.Response? || (IsHttpError(resp.code) && resp.code != 401) || resp.body.None?
    requires !(resp.Response? && resp.code == 401)
    ensures GetWeatherData(cityName, resp) == None
  {
  }

  /** A rejected key answers with the demo record of the resolved name, if
      there is one. */
  lemma WeatherRejectedKey(cityName: string, resp: HttpOutcome<WeatherReading>)
    requires !IsKimpoAlias(cityName) && resp.Response? && resp.code == 401
    ensures GetWeatherData(cityName, resp) == DemoLookup(DemoTable, Resolve(CityMap, cityName).name)
  {
  }

  /** " 서울 " strips to "서울". */
  lemma StripPaddedSeoul()
    ensures Strip(" 서울 ") == "서울"
  {
    var padded, right := " 서울 ", "서울 ";
    assert padded[0] == ' ' && padded[1..] == right && right[0] == '서';
    assert TrimStart(padded) == TrimStart(right) == right;
    assert right[|right| - 1] == ' ' && right[..|right| - 1] == "서울";
    assert TrimEnd(right) == TrimEnd("서울") == "서울";
  }

  /** " 서울 " is stripped and translated to "Seoul". */
  lemma ResolvePaddedSeoul()
    ensures Resolve(CityMap, " 서울 ") == Resolution("Seoul", true)
  {
    StripPaddedSeoul();
    CityMapSeoul();
  }

  /** For example, " 서울 " with a rejected key is resolved to "Seoul", whose
      demo record is found although the table is keyed "seoul". */
  lemma SeoulWithRejectedKey(body: Option<WeatherReading>)
    ensures GetWeatherData(" 서울 ", Response(401, body)) == Some(DemoTable["seoul"])
  {
    StripPaddedSeoul();
    ResolvePaddedSeoul();
    WeatherRejectedKey(" 서울 ", Response(401, body));
    SeoulInAnyCase();
  }

  /** `get_forecast_data(city_name)` of app.py, given the status the health
      monitor answered and the outcome of the request made while it is
      active. */
  function ForecastRoute(cityName: string, status: ApiStatus, resp: HttpOutcome<ForecastReport>): (r: Route<ForecastReport>)
    ensures IsKimpoAlias(cityName) ==> r == Demo("kimpo")
    ensures r.Live? <==>
      !IsKimpoAlias(cityName) && status == Active && resp.Response? && resp.code == 200 && resp.body.Some?
    ensures r.Live? ==> resp.Response? && resp.body == Some(r.data)
    ensures r.NoData? <==>
      !IsKimpoAlias(cityName) && status == Active && resp.Response? && resp.code == 404
    ensures r.Demo? && !IsKimpoAlias(cityName) ==> r.key == Resolve(CityMap, cityName).name
  {
    if IsKimpoAlias(cityName) then Demo("kimpo")
    else
      var english := Resolve(CityMap, cityName).name;
      if status == Active then
        match resp
        case Response(code, body) =>
          if code == 200 && body.Some? then Live(body.value)
          else if code == 404 then NoData
          else Demo(english)
        case Timeout => Demo(english)
        case TransportError => Demo(english)
      else Demo(english)
  }

  /** While the key is not active no request is made: the outcome is ignored. */
  lemma ForecastInactiveIgnoresRequest(cityName: string, status: ApiStatus,
                                       resp1: HttpOutcome<ForecastReport>, resp2: HttpOutcome<ForecastReport>)
    requires status != Active
    ensures ForecastRoute(cityName, status, resp1) == ForecastRoute(cityName, status, resp2)
    ensures !ForecastRoute(cityName, status, resp1).Live?
  {
  }

  /** The forecast a route hands back; a demo route generates the demo
      forecast for its key, or nothing for an unknown city. A bridge only:
      the route decides, and the fetch operations' contracts are stated
      through this function. */
  function DeliverForecast(route: Route<ForecastReport>, today: int, rng: Randomness): (r: Option<ForecastReport>)
    ensures route.Live? ==> r == Some(route.data)
    ensures route.NoData? ==> r == None
    ensures route.Demo? ==> r == DemoForecastSpec(route.key, today, rng)
  {
    match route
    case Live(data) => Some(data)
    case NoData => None
    case Demo(key) => DemoForecastSpec(key, today, rng)
  }

  /** `get_weather_by_coordinates` and `get_forecast_by_coordinates`: live
      data on an active key and a 200 with a JSON body, otherwise the Seoul
      demo, whatever the coordinates. */
  function CoordinatesRoute<T>(status: ApiStatus, resp: HttpOutcome<T>): (r: Route<T>)
    ensures r.Live? <==> status == Active && resp.Response? && resp.code == 200 && resp.body.Some?
    ensures r.Live? ==> resp.Response? && resp.body == Some(r.data)
    ensures !r.Live? ==> r == Demo("seoul")
  {
    if status == Active && resp.Response? && resp.code == 200 && resp.body.Some? then Live(resp.body.value)
    else Demo("seoul")
  }

  /** The coordinate fetchers always answer: the Seoul demo record and the
      Seoul demo forecast both exist. */
  lemma CoordinatesAlwaysAnswer(status: ApiStatus, weather: HttpOutcome<WeatherReading>,
                                forecast: HttpOutcome<ForecastReport>, today: int, rng: Randomness)
    ensures DeliverWeather(CoordinatesRoute(status, weather)).Some?
    ensures DeliverForecast(CoordinatesRoute(status, forecast), today, rng).Some?
  {
    assert Lower("seoul") == "seoul";
    ForecastBasesCities();
  }

  /** The fetchers as the script runs them against the session's monitor:
      each asks for the status first (the forecast fetcher after its 김포
      short cut), then, on an active key, reads the request's outcome. */

  /** `get_forecast_data(city_name)`. */
  method GetForecastData(monitor: ApiMonitor, cityName: string, now: int, probe: HttpOutcome<()>,
                         resp: HttpOutcome<ForecastReport>, today: int, rng: Randomness)
    returns (r: Option<ForecastReport>)
    modifies monitor
    ensures IsKimpoAlias(cityName) ==>
      monitor.State() == old(monitor.State()) && r == DemoForecastSpec("kimpo", today, rng)
    ensures !IsKimpoAlias(cityName) ==>
      && monitor.State() == Check(old(monitor.State()), now, probe).0
      && r == DeliverForecast(ForecastRoute(cityName, Check(old(monitor.State()), now, probe).1, resp), today, rng)
  {
    if IsKimpoAlias(cityName) {
      r := DemoForecast("kimpo", today, rng);
      return;
    }
    var english := Resolve(CityMap, cityName).name;
    var status := monitor.CheckStatus(now, probe);
    if status == Active {
      match resp
      case Response(code, body) =>
        if code == 200 && body.Some? {
          return body;
        } else if code == 404 {
          return None;
        }
      case Timeout =>
      case TransportError =>
    }
    r := DemoForecast(english, today, rng);
  }

  /** `get_weather_by_coordinates(lat, lon)`; the coordinates only enter the
      request, whose outcome is `resp`. */
  method GetWeatherByCoordinates(monitor: ApiMonitor, now: int, probe: HttpOutcome<()>,
                                 resp: HttpOutcome<WeatherReading>)
    returns (r: Option<WeatherReading>)
    modifies monitor
    ensures monitor.State() == Check(old(monitor.State()), now, probe).0
    ensures r == DeliverWeather(CoordinatesRoute(Check(old(monitor.State()), now, probe).1, resp))
    ensures r.Some?
  {
    var status := monitor.CheckStatus(now, probe);
    if status == Active && resp.Response? && resp.code == 200 && resp.body.Some? {
      return resp.body;
    }
    r := DemoLookup(DemoTable, "seoul");
    assert Lower("seoul") == "seoul";
  }

  /** `get_forecast_by_coordinates(lat, lon)`. */
  method GetForecastByCoordinates(monitor: ApiMonitor, now: int, probe: HttpOutcome<()>,
                                  resp: HttpOutcome<ForecastReport>, today: int, rng: Randomness)
    returns (r: Option<ForecastReport>)
    modifies monitor
    ensures monitor.State() == Check(old(monitor.State()), now, probe).0
    ensures r == DeliverForecast(CoordinatesRoute(Check(old(monitor.State()), now, probe).1, resp), today, rng)
    ensures r.Some?
  {
    var status := monitor.CheckStatus(now, probe);
    if status == Active && resp.Response? && resp.code == 200 && resp.body.Some? {
      return resp.body;
    }
    r := DemoForecast("seoul", today, rng);
    CoordinatesAlwaysAnswer(status, Timeout, resp, today, rng);
  }
}
