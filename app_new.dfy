/** app_new.py, the slimmer entry script. It shares the health monitor and
    the key configuration check with app.py, and its city table and demo
    records are app.py's without the 김포 entries. Its current-weather
    fetcher asks the monitor first and falls back to a demo record on
    every failure except a 404. */
module AppNew {
  import opened Text
  import opened Weather
  import opened Lookup
  import opened Health
  import opened AppTables
  import opened AppFetch

  /** `KOREAN_CITY_MAPPING` of app_new.py: the same sections as app.py's
      table, without "김포" and "김포시". */
  const NewCityMap: map<string, string> := CityMap - {"김포", "김포시"}

  /** The 16 records of `get_demo_weather_data` in app_new.py: app.py's
      records without kimpo. */
  const NewDemoTable: map<string, WeatherReading> := DemoTable - {"kimpo"}

  /** The 16 cities that have a demo record in app_new.py. */
  const NewDemoCities: set<string> := {
    "seoul", "busan", "incheon", "daegu", "daejeon", "gwangju", "ulsan", "suwon",
    "chuncheon", "cheongju", "jeonju", "jeju",
    "tokyo", "new york", "london", "paris"
  }

  /** The demo table holds exactly the 16 listed cities, kimpo not among them. */
  lemma NewDemoTableCities()
    ensures NewDemoTable.Keys == NewDemoCities
    ensures "kimpo" !in NewDemoTable
  {
    DemoTableCities();
  }

  /** The lookup is case-insensitive: a record is found exactly when the
      lower-cased name is one of the 16 cities. */
  lemma NewDemoLookupFound(cityName: string)
    ensures DemoLookup(NewDemoTable, cityName).Some? <==> Lower(cityName) in NewDemoCities
  {
    NewDemoTableCities();
  }

  /** The table still has only English values, so resolving twice changes
      nothing here either. */
  lemma NewCityMapHasEnglishValues()
    ensures EnglishValues(NewCityMap)
  {
    CityMapHasEnglishValues();
    forall k | k in NewCityMap ensures NewCityMap[k] !in NewCityMap && Strip(NewCityMap[k]) == NewCityMap[k] {
      assert CityMap[k] !in CityMap;
    }
  }

  /** Without 김포 entries, "김포" comes back unchanged and unconverted. */
  lemma NewKimpoUnconverted()
    ensures Resolve(NewCityMap, "김포") == Resolution("김포", false)
  {
    StripUnchanged("김포");
  }

  /** No demo record answers to "김포" either. */
  lemma NewKimpoNoRecord()
    ensures DemoLookup(NewDemoTable, "김포") == None
  {
    LowerUnchanged("김포");
    NewDemoTableCities();
    assert "김포" !in NewDemoCities;
  }

  /** The Seoul record is still found under "Seoul". */
  lemma NewSeoulRecord()
    ensures DemoLookup(NewDemoTable, "Seoul") == Some(DemoTable["seoul"])
  {
    assert Lower("Seoul") == "seoul";
    NewDemoTableCities();
  }

  /** "서울" is still a key, with the same translation. */
  lemma NewCityMapHasSeoul()
    ensures "서울" in NewCityMap && NewCityMap["서울"] == "Seoul"
  {
    CityMapSeoul();
  }

  /** "서울" still translates to "Seoul". */
  lemma NewCityMapSeoul()
    ensures Resolve(NewCityMap, "서울") == Resolution("Seoul", true)
  {
    NewCityMapHasSeoul();
    StripUnchanged("서울");
    ResolveKey(NewCityMap, "서울");
  }

  /** `get_weather_data(city_name)` of app_new.py, given the status the
      monitor answered and the outcome of the request made while it is
      active: 200 with a JSON body is live, 404 is nothing, and everything
      else, an inactive key included, is the demo record of the resolved
      name. */
  function NewWeatherRoute(cityName: string, status: ApiStatus, resp: HttpOutcome<WeatherReading>): (r: Route<WeatherReading>)
    ensures r.Live? <==> status == Active && resp.Response? && resp.code == 200 && resp.body.Some?
    ensures r.Live? ==> resp.Response? && resp.body == Some(r.data)
    ensures r.NoData? <==> status == Active && resp.Response? && resp.code == 404
    ensures r.Demo? ==> r.key == Resolve(NewCityMap, cityName).name
  {
    var english := Resolve(NewCityMap, cityName).name;
    if status == Active then
      match resp
      case Response(code, body) =>
        if code == 200 && body.Some? then Live(body.value)
        else if code == 404 then NoData
        else Demo(english)
      case Timeout => Demo(english)
      case TransportError => Demo(english)
    else Demo(english)
  }

  /** The record a route hands back; a demo route looks in the 16-record
      table. A bridge only:
      the route decides, and the fetch operations' contracts are stated
      through this function. */
  function NewDeliverWeather(route: Route<WeatherReading>): (r: Option<WeatherReading>)
    ensures route.Live? ==> r == Some(route.data)
    ensures route.NoData? ==> r == None
    ensures route.Demo? ==> r == DemoLookup(NewDemoTable, route.key)
  {
    match route
    case Live(data) => Some(data)
    case NoData => None
    case Demo(key) => DemoLookup(NewDemoTable, key)
  }

  /** While the key is not active no request is made: the outcome is
      ignored and the demo record of the resolved name is the answer. */
  lemma NewInactiveUsesDemo(cityName: string, status: ApiStatus, resp: HttpOutcome<WeatherReading>)
    requires status != Active
    ensures NewDeliverWeather(NewWeatherRoute(cityName, status, resp))
         == DemoLookup(NewDemoTable, Resolve(NewCityMap, cityName).name)
  {
  }

  /** An active key with a 404 gives nothing, even for a city that has a
      demo record. */
  lemma NewNotFoundSkipsDemo(cityName: string, body: Option<WeatherReading>)
    ensures NewDeliverWeather(NewWeatherRoute(cityName, Active, Response(404, body))) == None
  {
  }

  /** An active key with any status but 200 and 404, a 200 whose body is
      not JSON, a timeout or a transport failure falls through to the demo
      record. */
  lemma NewOtherFailuresUseDemo(cityName: string, resp: HttpOutcome<WeatherReading>)
    requires !resp.Response? || (resp.code != 404 && (resp.code != 200 || resp.body.None?))
    ensures NewDeliverWeather(NewWeatherRoute(cityName, Active, resp))
         == DemoLookup(NewDemoTable, Resolve(NewCityMap, cityName).name)
  {
  }

  /** The two scripts route a server error differently: for a city that
      is no 김포 alias and has a demo record in app_new.py ("서울" is one, by
      `NewCityMapSeoul` and `NewSeoulRecord`), a 500 gives nothing in
      app.py and the demo record in app_new.py. */
  lemma ScriptsDifferOnServerError(cityName: string, body: Option<WeatherReading>)
    requires !IsKimpoAlias(cityName)
    requires DemoLookup(NewDemoTable, Resolve(NewCityMap, cityName).name).Some?
    ensures AppFetch.GetWeatherData(cityName, Response(500, body)) == None
    ensures NewDeliverWeather(NewWeatherRoute(cityName, Active, Response(500, body)))
         == DemoLookup(NewDemoTable, Resolve(NewCityMap, cityName).name)
    ensures NewDeliverWeather(NewWeatherRoute(cityName, Active, Response(500, body))).Some?
  {
    WeatherFailuresGiveNothing(cityName, Response(500, body));
    NewOtherFailuresUseDemo(cityName, Response(500, body));
  }

  /** `get_weather_data(city_name)` as the script runs it against the
      session's monitor: resolve, ask for the status, and on an active key
      read the request's outcome. */
  method GetWeatherData(monitor: ApiMonitor, cityName: string, now: int, probe: HttpOutcome<()>,
                        resp: HttpOutcome<WeatherReading>)
    returns (r: Option<WeatherReading>)
    modifies monitor
    ensures monitor.State() == Check(old(monitor.State()), now, probe).0
    ensures r == NewDeliverWeather(NewWeatherRoute(cityName, Check(old(monitor.State()), now, probe).1, resp))
  {
    var english := Resolve(NewCityMap, cityName).name;
    var apiStatus := monitor.CheckStatus(now, probe);
    ghost var route := NewWeatherRoute(cityName, apiStatus, resp);
    if apiStatus == Active {
      match resp
      case Response(code, body) =>
        if code == 200 && body.Some? {
          assert route == Live(body.value);
          return body;
        } else if code == 404 {
          assert route == NoData;
          return None;
        }
      case Timeout =>
      case TransportError =>
    }
    assert route == Demo(english);
    r := DemoLookup(NewDemoTable, english);
  }

  /** The start of `main()`: without a configured key only the setup guide
      is shown and the monitor is left alone; otherwise the status is
      checked once and shown. */
  method StartPage(monitor: ApiMonitor, key: string, now: int, probe: HttpOutcome<()>)
    returns (shown: Option<ApiStatus>)
    modifies monitor
    ensures !KeyConfigured(key) ==> shown == None && monitor.State() == old(monitor.State())
    ensures KeyConfigured(key) ==>
      && monitor.State() == Check(old(monitor.State()), now, probe).0
      && shown == Some(Check(old(monitor.State()), now, probe).1)
  {
    if !KeyConfigured(key) {
      return None;
    }
    var apiStatus := monitor.CheckStatus(now, probe);
    shown := Some(apiStatus);
  }
}
