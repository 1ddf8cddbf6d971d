# Weather dashboard decision logic in Dafny

The repository is a Streamlit weather dashboard with two entry scripts,
`app.py` (the full dashboard) and `app_new.py` (a slimmer version). Most of
both scripts renders pages. Underneath the rendering is a small amount of
decision logic, and this project models that logic and proves properties of
it:

- **Key configuration check.** A key is configured unless it is empty or the
  placeholder `YOUR_API_KEY_HERE`.
- **City name resolver.** The input is stripped, then looked up in a fixed
  Korean-to-English table. The result says whether the name was translated.
- **API health monitor.** The session keeps a status and a last-checked
  time. A probe request is sent only once at least 300 seconds have passed
  since the last check. Its outcome is classified as active, invalid, error
  or network error.
- **Fetchers with fallback.** Each fetcher turns the outcome of one request
  into one of three answers: the live body, nothing, or a record from a
  fixed demo table. The demo lookup ignores case.
- **Demo forecast generator.** It produces five days of eight three-hour
  slots around a city's base temperature.
- **Rule-based classifiers.** These are:
  - the temperature colour and its legend;
  - the icon label;
  - the mood suggestions;
  - the advice list;
  - the keyword-routed "AI assistant".

Modules:

| file | module | contents |
|---|---|---|
| `text.dfy` | `Text` | Python's `strip()`, `lower()`, `title()` and substring `in` |
| `weather.dfy` | `Weather` | weather and forecast records, HTTP outcomes, routes |
| `health.dfy` | `Health` | key configuration check; health monitor as a function and as a class |
| `lookup.dfy` | `Lookup` | the resolver and the demo lookup, over any table |
| `app_tables.dfy` | `AppTables` | app.py's city table, demo records and forecast bases |
| `app_forecast.dfy` | `AppForecast` | the demo forecast generator (a nested loop) |
| `app_fetch.dfy` | `AppFetch` | app.py's four fetchers |
| `app_rules.dfy` | `AppRules` | colour, icon, mood and advice rules |
| `app_assistant.dfy` | `AppAssistant` | the assistant's keyword routing |
| `app_new.dfy` | `AppNew` | app_new.py's tables, fetcher and start gate |

How things that cannot be modelled directly are handled:

- **HTTP.** Every request is replaced by a parameter of type `HttpOutcome`.
  An outcome is one of three things: a response with a status code and an
  optional JSON body, a `Timeout`, or any other `RequestException`.
- **A body that is not JSON.** It is a response whose body is `None`. In
  `requests` 2.27 and later, `response.json()` raises a `JSONDecodeError`,
  which is a `RequestException`, so the scripts' `except RequestException`
  clauses catch it.
- **The clock.** It is an integer parameter `now`.
- **The random draws of the demo forecast.** They are a `Randomness`
  parameter. Its values lie in the ranges the script draws from.
- **State that changes in place.** The health monitor's two session fields
  are the class `Health.ApiMonitor`. Its `CheckStatus` method is proved
  against the pure function `Health.Check`. The demo forecast and the
  advice list are methods with the script's loops and `if` chains. Each is
  proved equal to a specification function, and the properties are proved
  about that function.

Both scripts contain the same health monitor and key check, in
app.py:185-189 and 357-385 and in app_new.py:24-28 and 131-159. The model
has one copy of each. app_new.py's city table and demo records are app.py's
without the 김포 entries, and `AppNew` defines them that way.

## Model

| member | source | states |
|---|---|---|
| Health.KeyConfigured | app.py:185-189 | the key counts as unconfigured exactly when it is empty or equals the placeholder; identical in app_new.py:24-28 |
| Health.Classify | app.py:372-382 | 200 is active, 401 is invalid, any other status is an error, and a failed request is a network error; the result is never unknown |
| Health.Check | app.py:359-385 | within 300 seconds of the last check the state is unchanged and the cached status is answered; otherwise the classified status and `now` are recorded and that status is answered |
| Health.FirstCheckProbes | app.py:250-254 | the session starts at time 0, so the first check at any clock reading of 300 or later probes |
| Health.ProbesSpaced | app.py:359-385 | over any run of checks, every probe comes at least 300 seconds after the starting check time and after every earlier probe |
| Health.OneProbePerWindow | app_new.py:131-159 | no two probes fall inside one 300-second window |
| Health.RunRecordsLastProbe | app.py:384 | after a run of checks, the last-checked time is the time of the latest probe, or the starting time when nothing was probed |
| Health.ApiMonitor.constructor | app.py:250-254 | the session starts with status unknown, checked at time 0 (also app_new.py:89-93) |
| Health.ApiMonitor.CheckStatus | app.py:357-385 | updates the two session fields exactly as `Check` says and returns the status it answers |
| Lookup.Resolve | app.py:800-813 | a stripped input that is a table key gives the table's value, flagged converted; any other input gives the stripped input, unconverted |
| Lookup.ResolveTwice | app.py:800-813 | when the table's values are English names, resolving a resolved name again returns it unchanged and unconverted |
| Lookup.DemoLookup | app.py:1079-1080 | a record is found exactly when the lower-cased name is a key, and it is that key's record |
| Lookup.DemoLookupIgnoresCase | app.py:1079-1080 | every spelling whose lower case is a lower-case key finds that key's record |
| AppTables.DemoTableCities | app.py:817-1078 | the demo table holds exactly the 17 listed cities |
| AppTables.ForecastBasesCities | app.py:1088-1106 | the forecast base table holds the same 17 cities |
| AppTables.ForecastBasesMatchDemoTable | app.py:1088-1106 | each forecast base repeats its city's demo temperature, icon and description |
| AppTables.CityMapHasEnglishValues | app.py:282-355 | every translated name is neither a key of the table nor padded with white space |
| AppTables.CityMapSeoul | app.py:284 | the table translates "서울" to "Seoul" |
| AppTables.DemoKeysLowerCase | app.py:817-1078 | every demo key is in lower case, so the lower-casing lookup reaches each one |
| AppTables.KimpoRecordFound | app.py:1001-1002 | the kimpo record is found under the key "kimpo", which the 김포 short cuts use |
| AppTables.KimpoNameNotAKey | app.py:1001-1002 | the kimpo record is named "김포", and looking it up by that name finds nothing |
| AppTables.SeoulInAnyCase | app.py:815-835 | "SEOUL" finds the Seoul record at 18.5 degrees with "구름조금"; so does "Seoul" |
| AppForecast.Days | app.py:1126-1147 | five days of eight slots make a list of 8 × n slots |
| AppForecast.DemoForecast | app.py:1082-1159 | the nested day and slot loops build exactly the forecast `DemoForecastSpec` describes |
| AppForecast.DaysIndex | app.py:1126-1147 | slot k of the list is slot k mod 8 of day k div 8 |
| AppForecast.DemoForecastFound | app.py:1107-1109 | a forecast exists exactly for the 17 demo cities, in any letter case |
| AppForecast.DemoForecastSpec | app.py:1107-1159 | a forecast exists exactly when the lower-cased city has a base temperature, and a found forecast has cod "200" and exactly 40 slots, which `cnt` counts |
| AppForecast.DemoForecastTimes | app.py:1126-1137 | slot k lies k div 8 + 1 days and 3·(k mod 8) hours after the clock reading, so slot times strictly increase |
| AppForecast.DemoForecastBounds | app.py:1128-1145 | every slot is within 5 degrees of the base, has a minimum 2 below and a maximum 2 above, a humidity of 50 to 80, a wind of 1 to 5 and one of the eight patterns |
| AppForecast.DemoForecastCity | app.py:1149-1159 | the reported city is "김포" for kimpo in any case and the title-cased input otherwise; the country is "KR" exactly for the 13 Korean cities and "US" otherwise |
| AppForecast.ForeignForecastsSayUS | app.py:1155-1158 | the forecasts of Tokyo, London and Paris report "US", although their demo weather records say JP, GB and FR |
| AppFetch.WeatherRoute | app.py:1335-1402 | 김포 and 김포시 are the kimpo demo before any request; a 401 is the demo record of the resolved name; live data exactly for a response that is not an HTTP error and has a JSON body; nothing otherwise |
| AppFetch.GetWeatherData | app.py:1335-1402 | for a name that is no 김포 alias, a response that is no HTTP error gives its parsed body, or nothing when that is not JSON; a record comes back only from such a response or from a 401 |
| AppFetch.KimpoWeatherFirst | app.py:1341-1346 | 김포 and 김포시, padded or not, get the kimpo record whatever the request would return |
| AppFetch.WeatherFailuresGiveNothing | app.py:1383-1402 | a timeout, a transport failure, a non-JSON body, a 404, a 429 and every other HTTP error but 401 give nothing |
| AppFetch.WeatherRejectedKey | app.py:1365-1382 | a 401 gives the demo record of the resolved name, or nothing when there is none |
| AppFetch.SeoulWithRejectedKey | app.py:1349-1376 | " 서울 " with a rejected key resolves to "Seoul" and finds the demo record keyed "seoul" |
| AppFetch.ForecastRoute | app.py:1224-1288 | 김포 is the kimpo demo; live exactly for an active key and a 200 with a JSON body; nothing exactly for an active key and a 404; every other case is the demo forecast of the resolved name |
| AppFetch.ForecastInactiveIgnoresRequest | app.py:1244-1275 | while the key is not active the request's outcome is never read and no live data is returned |
| AppFetch.CoordinatesRoute | app.py:1290-1333 | live exactly for an active key and a 200 with a JSON body; otherwise the Seoul demo, whatever the coordinates |
| AppFetch.CoordinatesAlwaysAnswer | app.py:1211-1220 | the coordinate fetchers always return a record, because the Seoul demo record and demo forecast exist |
| AppFetch.GetForecastData | app.py:1224-1288 | for 김포 the monitor is not consulted; otherwise one status check, then the forecast `ForecastRoute` chooses |
| AppFetch.GetWeatherByCoordinates | app.py:1290-1333 | one status check, then live data or the Seoul demo record; never nothing |
| AppFetch.GetForecastByCoordinates | app.py:1179-1222 | one status check, then the live forecast or the Seoul demo forecast; never nothing |
| AppRules.TemperatureColor | app.py:387-400 | the marker colour of a temperature is the colour of every legend line (app.py:493-505) that contains it |
| AppRules.ColorMatchesLegend | app.py:387-400 | the marker colour is the colour of the legend line (app.py:493-505) the temperature falls on, and no other line contains it |
| AppRules.LegendCoversEveryTemperature | app.py:493-505 | every temperature falls on some legend line |
| AppRules.ColorMonotone | app.py:387-400 | a warmer temperature never gets a colder colour |
| AppRules.IconLabel | app.py:402-415 | a listed icon code gets its table label and any other code gets "CLEAR" |
| AppRules.ClearMeansUnknown | app.py:402-415 | "CLEAR" is returned exactly for unlisted codes |
| AppRules.DayAndNightAgree | app.py:404-414 | the day and night codes of clouds, overcast, showers, rain, storm, snow and fog share their label |
| AppRules.DayAndNightDiffer | app.py:405-406 | clear sky is SUN by day and MOON by night; few clouds is PARTLY_CLOUDY by day and CLOUDY by night |
| AppRules.ForecastPatternsLabelled | app.py:1115-1124 | every icon the demo forecast can draw is listed in the icon table |
| AppRules.MoodSuggestions | app.py:584-603 | three neutral choices without data, otherwise four; which four is stated by `MoodDescriptionFirst` and `MoodTemperatureBands` |
| AppRules.MoodDescriptionFirst | app.py:592-597 | when the description mentions clear sky, rain or "구름", the temperature plays no part; clear sky gives the clear-sky moods, rain without clear sky the calm moods, and "구름" without either the cloud moods |
| AppRules.MoodTemperatureBands | app.py:598-603 | when the description mentions none of clear sky, rain and "구름", above 25 degrees gives the hot moods, below 10 the cold moods and anything between the mild moods, whatever such description it is |
| AppRules.AdviceTextsDistinct | app.py:723-770 | the advice lines are pairwise different texts, so the list of advice and the lines shown determine each other |
| AppRules.ClothingAdvice | app.py:723-736 | the temperature band always yields a piece of clothing advice |
| AppRules.SkyAdvice | app.py:739-750 | at most one piece of advice on the sky |
| AppRules.AdviceFor | app.py:710-773 | 1 to 5 items; the first is the clothing advice and no later one is; an umbrella exactly when rain is mentioned; the perfect-day line exactly on a perfect day; the empty-list fallback never taken |
| AppRules.WeatherAdvice | app.py:710-773 | no data gives []; otherwise the list the tests append is exactly `AdviceFor` |
| AppRules.CloudTestRedundant | app.py:745 | the "구름많음" half of the cloud test never decides anything, since "구름" then also occurs |
| AppRules.DemoSkyAdvice | app.py:1048-1062 | London's demo record gets the umbrella advice, and Chuncheon's (app.py:941-955) the fog warning |
| AppAssistant.AnyInSomeWord | app.py:621 | `any(word in question ...)` holds exactly when some keyword of the list occurs in the question |
| AppAssistant.FirstMatchFrom | app.py:621-708 | the topic is the first rule whose keywords occur, and unknown exactly when no rule matches |
| AppAssistant.AnswerLines | app.py:621-706 | a known topic gives one line on that topic; an unknown one gives six lines starting with the not-understood line |
| AppAssistant.OutingAnswer | app.py:621-629 | the answer is one of the outing templates; which one is stated by `OutingCases` and `OutingRainyExactly` |
| AppAssistant.OutingCases | app.py:621-630 | perfect exactly at 18 to 28 degrees with "맑"; otherwise good exactly without rain at 15 to 30 degrees, and doubtful exactly without rain outside 15 to 30 |
| AppAssistant.LaundryAnswer | app.py:632-641 | the answer is one of the laundry templates; which one is stated by `LaundryCases` |
| AppAssistant.LaundryCases | app.py:632-641 | rainy exactly when it rains; otherwise ideal exactly below 60% humidity with more than 1 m/s wind, fine exactly for the rest below 70%, poor exactly at 70% or more |
| AppAssistant.ExerciseAnswer | app.py:643-654 | the answer is one of the exercise templates; which one is stated by `ExerciseCases` |
| AppAssistant.ExerciseCases | app.py:643-654 | ideal exactly at 15 to 25 degrees without rain; too hot exactly above 30, too cold exactly below 10; at 10 to 30 otherwise, rainy exactly when it rains and moderate exactly when it does not |
| AppAssistant.UmbrellaAnswer | app.py:656-661 | the answer is one of the umbrella templates; which one is stated by `UmbrellaCases` |
| AppAssistant.UmbrellaCases | app.py:656-661 | take an umbrella exactly when the description has "비" |
| AppAssistant.ClothingAnswer | app.py:663-676 | the answer is one of the clothing templates; which one is stated by `ClothingCases` |
| AppAssistant.ClothingCases | app.py:663-676 | padding exactly below 5 degrees, coat exactly at 5 to below 10, jacket at 10 to below 15, long sleeves at 15 to below 20, short sleeves at 20 to below 25, shorts exactly from 25 |
| AppAssistant.DrivingAnswer | app.py:678-687 | the answer is one of the driving templates; which one is stated by `DrivingCases` |
| AppAssistant.DrivingCases | app.py:678-687 | fog exactly when the description has "안개"; without fog, rain exactly when it has "비"; without both, wind exactly above 7 m/s and a good drive exactly at 7 m/s or less |
| AppAssistant.GeneralAnswer | app.py:689-698 | the answer is one of the general templates; which one is stated by `GeneralCases` |
| AppAssistant.GeneralCases | app.py:689-698 | best exactly at 20 to 25 degrees with "맑"; otherwise good exactly without rain at 15 to 28 degrees and rainy exactly when it rains; plain exactly without rain outside 15 to 28 |
| AppAssistant.ChainIsFirstMatch | app.py:621-700 | the script's `elif` chain picks the first matching rule of the keyword table |
| AppAssistant.RespondTo | app.py:618-706 | the responses the chain appends are exactly the answer lines of the chain's topic |
| AppAssistant.WeatherAiAssistant | app.py:605-708 | the apology without data; otherwise the answer lines of the first topic matching the lower-cased, stripped question |
| AppAssistant.ReplyLength | app.py:618-708 | a recognised question gets exactly one line on its topic, any other exactly six |
| AppAssistant.WalkIsAnOuting | app.py:621-643 | "산책" is an outing and an exercise keyword; outings are tried first, so it routes to an outing |
| AppAssistant.RainAnswers | app.py:621-662 | rain decides the umbrella and laundry answers and rules out the good-outing, ideal-exercise and good-general answers |
| AppAssistant.ClearBeatsRain | app.py:621-698 | "맑" is tested before "비": a description with both at 20 to 25 degrees gets the perfect outing and the best general answer, yet the umbrella answer says to take one |
| AppAssistant.OutingRainyExactly | app.py:622-628 | the outing answer is the rainy one exactly when it rains and the perfect-outing test fails |
| AppNew.NewDemoTableCities | app_new.py:170-255 | the demo table holds exactly 16 cities, kimpo not among them |
| AppNew.NewDemoLookupFound | app_new.py:170-255 | the lookup finds a record exactly when the lower-cased name is one of the 16 cities |
| AppNew.NewCityMapHasEnglishValues | app_new.py:96-129 | every translated name is neither a key nor padded, so resolving twice changes nothing |
| AppNew.NewKimpoUnconverted | app_new.py:161-168 | "김포" comes back unchanged and unconverted |
| AppNew.NewKimpoNoRecord | app_new.py:170-255 | no demo record answers to "김포" |
| AppNew.NewSeoulRecord | app_new.py:173-177 | "Seoul" finds the Seoul demo record |
| AppNew.NewCityMapSeoul | app_new.py:98 | "서울" still translates to "Seoul" |
| AppNew.NewWeatherRoute | app_new.py:257-311 | live exactly for an active key and a 200 with a JSON body; nothing exactly for an active key and a 404; the demo record of the resolved name in every other case |
| AppNew.NewInactiveUsesDemo | app_new.py:267-311 | while the key is not active the outcome is ignored and the demo record of the resolved name, or nothing, is returned |
| AppNew.NewNotFoundSkipsDemo | app_new.py:286-288 | an active key with a 404 gives nothing, even for a city with a demo record |
| AppNew.NewOtherFailuresUseDemo | app_new.py:289-306 | any other status, a 200 without a JSON body, a timeout or a transport failure falls through to the demo lookup |
| AppNew.ScriptsDifferOnServerError | app_new.py:289-306 | for every city that is no 김포 alias and has a demo record in app_new.py (such as "서울"), a 500 gives nothing in app.py (app.py:1383-1402) and, while the key is active, that demo record in app_new.py |
| AppNew.GetWeatherData | app_new.py:257-311 | one status check, then the record `NewWeatherRoute` chooses |
| AppNew.StartPage | app_new.py:388-401 | without a configured key the monitor is left alone and no status is shown; otherwise one status check |

## Left out

- **Page rendering.** All Streamlit calls, CSS and layout are left out. So
  are the info, warning and spinner messages and the UI session flags.
- **HTTP requests.** Requests to the weather service and to `ip-api.com`
  are outcome parameters. `get_location_by_ip` is not modelled. The query
  parameters, such as the coordinates, only enter the request, so they do
  not appear.
- **The clock.** `time.time()` and `datetime.now()` are integer parameters.
  Fractional seconds are not modelled. A forecast slot's `dt` truncates the
  timestamp to whole seconds, so the model's clock reading is that whole
  number.
- **Rounding and text formatting.** `round()` on the random forecast values
  is not modelled. Nor are `dt_txt`, `strftime` and timezone handling.
- **The assistant's answers.** Each answer, the apology and each line of
  help is modelled by which template it is. Their text is not, and neither
  are the numbers and names formatted into it.
- **Exceptions other than `RequestException`.** A `KeyError` on a malformed
  JSON body is one example. Bodies are records of the expected shape.
- **The `.get('desc')` fallback.** The description is read directly. The
  fallback to a `desc` field applies only to records that lack
  `description`, and none of the scripts' own records does.
- **The assistant's third parameter.** It is unused.
- **The map, chart and weather diary.** The folium map, the plotly chart
  and the diary file I/O are left out. So are
  `get_weather_background_color`, `display_forecast_info` and the random
  hourly fallback.
- **Unicode case mapping.** `lower()` and `title()` map ASCII letters only.
  Every key and keyword of the scripts is ASCII or Hangul, and Hangul has no
  case. Input whose Python lower case is ASCII but which is not ASCII itself
  is outside the model: the KELVIN SIGN in "\u212Aimpo" lowers to "kimpo" in
  Python, so the scripts find the kimpo record and forecast name for it,
  while `Lookup.DemoLookup` and `AppForecast.ForecastCityName` do not.
- **Loading the API key.** The key is a parameter of `KeyConfigured`. How
  the environment supplies it is not modelled.
- **Demo forecast timing.** `AppForecast.DemoForecastSpec` places slots by
  whole seconds from the clock reading. The script adds `timedelta` values
  to a `datetime`, so this matches except across daylight-saving changes.
