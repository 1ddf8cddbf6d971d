/** `get_demo_forecast_data` of app.py: a made-up five-day forecast of
    eight three-hour slots a day around a city's base temperature. The
    clock reading and every random draw are inputs; rounding to one
    decimal is not modelled. */
module AppForecast {
  import opened Text
  import opened Weather
  import opened Lookup
  import opened AppTables

  /** `random.uniform(-3, 3)`: the day's temperature variation. */
  type DayShift = r: real | -3.0 <= r <= 3.0 witness 0.0

  /** `random.uniform(-2, 2)`: a slot's variation on top of the day's. */
  type HourShift = r: real | -2.0 <= r <= 2.0 witness 0.0

  /** `random.randint(50, 80)`: a slot's humidity. */
  type DemoHumidity = h: int | 50 <= h <= 80 witness 50

  /** `random.uniform(1, 5)`: a slot's wind speed. */
  type DemoWind = w: real | 1.0 <= w <= 5.0 witness 1.0

  /** `random.choice(weather_patterns)`: an index into the eight patterns. */
  type PatternIndex = p: int | 0 <= p < 8 witness 0

  /** The draws made for one slot. */
  datatype SlotDraw = SlotDraw(shift: HourShift, pattern: PatternIndex, humidity: DemoHumidity, wind: DemoWind)

  /** Every random draw of one call: the variation of day `d` and the draws
      of slot `s` on day `d`. */
  datatype Randomness = Randomness(dayShift: int -> DayShift, slot: (int, int) -> SlotDraw)

  const SecondsPerDay: int := 86400
  const SecondsPerSlot: int := 10800
  const DayCount: int := 5
  const SlotsPerDay: int := 8

  /** `weather_patterns`. */
  const Patterns: seq<Condition> := [
    Condition("01d", "맑음"), Condition("02d", "구름조금"), Condition("03d", "구름많음"),
    Condition("04d", "흐림"), Condition("09d", "소나기"), Condition("10d", "비"),
    Condition("13d", "눈"), Condition("50d", "안개")
  ]

  /** The cities whose demo forecast is reported as Korean. */
  const KoreanForecastCities: seq<string> := [
    "seoul", "busan", "incheon", "daegu", "daejeon", "gwangju", "ulsan", "suwon",
    "chuncheon", "cheongju", "jeonju", "jeju", "kimpo"
  ]

  /** The time of slot `s` on day `d`: `today + (d + 1)` days `+ 3s` hours. */
  function SlotTime(today: int, d: int, s: int): int {
    today + (d + 1) * SecondsPerDay + s * SecondsPerSlot
  }

  /** Slot `s` of day `d` around the base temperature `base`. */
  function DemoSlot(base: real, today: int, rng: Randomness, d: int, s: int): ForecastSlot {
    var draw := rng.slot(d, s);
    var temp := base + rng.dayShift(d) + draw.shift;
    ForecastSlot(SlotTime(today, d, s), temp, temp - 2.0, temp + 2.0, draw.humidity,
                 Patterns[draw.pattern], draw.wind)
  }

  /** The eight slots of day `d`. */
  function DaySlots(base: real, today: int, rng: Randomness, d: int): seq<ForecastSlot> {
    seq(SlotsPerDay, s requires 0 <= s < SlotsPerDay => DemoSlot(base, today, rng, d, s))
  }

  /** The slots of the first `n` days. */
  function Days(base: real, today: int, rng: Randomness, n: nat): (r: seq<ForecastSlot>)
    ensures |r| == SlotsPerDay * n
  {
    if n == 0 then [] else Days(base, today, rng, n - 1) + DaySlots(base, today, rng, n - 1)
  }

  /** The reported city name: "김포" for kimpo, otherwise the input title-cased. */
  function ForecastCityName(cityName: string): string {
    if Lower(cityName) == "kimpo" then "김포" else Title(cityName)
  }

  /** The reported country: "KR" for the thirteen Korean demo cities,
      "US" for every other city. */
  function ForecastCountry(cityName: string): string {
    if Lower(cityName) in KoreanForecastCities then "KR" else "US"
  }

  /** What `get_demo_forecast_data(cityName)` returns for a given clock
      reading and draws: nothing for a city without a base temperature,
      otherwise a "200" report of forty slots that `cnt` counts. */
  function DemoForecastSpec(cityName: string, today: int, rng: Randomness): (r: Option<ForecastReport>)
    ensures r.Some? <==> Lower(cityName) in ForecastBases
    ensures r.Some? ==> r.value.cod == "200" && |r.value.slots| == 40 && r.value.cnt == 40
  {
    match DemoLookup(ForecastBases, cityName)
    case None => None
    case Some(b) =>
      var slots := Days(b.temp, today, rng, DayCount);
      Some(ForecastReport("200", |slots|, slots, ForecastCityName(cityName), ForecastCountry(cityName)))
  }

  /** The generator as the script runs it: a loop over the days, an inner
      loop over the day's slots, and each day's slots appended to the list. */
  method DemoForecast(cityName: string, today: int, rng: Randomness) returns (r: Option<ForecastReport>)
    ensures r == DemoForecastSpec(cityName, today, rng)
  {
    var baseData := DemoLookup(ForecastBases, cityName);
    if baseData.None? {
      return None;
    }
    var base := baseData.value.temp;
    var forecast: seq<ForecastSlot> := [];
    for i := 0 to DayCount
      invariant forecast == Days(base, today, rng, i)
    {
      var tempVariation := rng.dayShift(i);
      var dayForecasts: seq<ForecastSlot> := [];
      for j := 0 to SlotsPerDay
        invariant dayForecasts == DaySlots(base, today, rng, i)[..j]
      {
        var draw := rng.slot(i, j);
        var hourTemp := base + tempVariation + draw.shift;
        dayForecasts := dayForecasts + [ForecastSlot(SlotTime(today, i, j), hourTemp, hourTemp - 2.0,
          hourTemp + 2.0, draw.humidity, Patterns[draw.pattern], draw.wind)];
      }
      forecast := forecast + dayForecasts;
    }
    r := Some(ForecastReport("200", |forecast|, forecast, ForecastCityName(cityName), ForecastCountry(cityName)));
  }

  /** Slot `k` of the first `n` days is slot `k % 8` of day `k / 8`. */
  lemma {:induction false} DaysIndex(base: real, today: int, rng: Randomness, n: nat, k: int)
    requires 0 <= k < SlotsPerDay * n
    ensures Days(base, today, rng, n)[k] == DemoSlot(base, today, rng, k / SlotsPerDay, k % SlotsPerDay)
  {
    var prev := Days(base, today, rng, n - 1);
    if k < SlotsPerDay * (n - 1) {
      DaysIndex(base, today, rng, n - 1, k);
    } else {
      assert Days(base, today, rng, n)[k] == DaySlots(base, today, rng, n - 1)[k - |prev|];
      assert k / SlotsPerDay == n - 1 && k % SlotsPerDay == k - |prev|;
    }
  }

  /** The generator finds a forecast exactly for the seventeen demo cities,
      in any letter case. */
  lemma DemoForecastFound(cityName: string, today: int, rng: Randomness)
    ensures DemoForecastSpec(cityName, today, rng).Some? <==> Lower(cityName) in DemoCities
  {
    ForecastBasesCities();
  }

  /** Slot `k` falls `k / 8 + 1` days and `3 · (k % 8)` hours after the
      clock reading, so the slot times strictly increase. */
  lemma DemoForecastTimes(cityName: string, today: int, rng: Randomness, k: int, m: int)
    requires DemoForecastSpec(cityName, today, rng).Some?
    requires 0 <= k < m < 40
    ensures var f := DemoForecastSpec(cityName, today, rng).value;
      && f.slots[k].dt == today + (k / 8 + 1) * SecondsPerDay + (k % 8) * SecondsPerSlot
      && f.slots[k].dt < f.slots[m].dt
  {
    var b := DemoLookup(ForecastBases, cityName).value;
    DaysIndex(b.temp, today, rng, DayCount, k);
    DaysIndex(b.temp, today, rng, DayCount, m);
    if k / 8 < m / 8 {
      assert (k / 8 + 1) * SecondsPerDay + (k % 8) * SecondsPerSlot
           < (m / 8 + 1) * SecondsPerDay + (m % 8) * SecondsPerSlot;
    }
  }

  /** Every slot keeps within five degrees of the base temperature, with a
      minimum two below and a maximum two above, a humidity of 50 to 80, a
      wind of 1 to 5 and one of the eight patterns. */
  lemma DemoForecastBounds(cityName: string, today: int, rng: Randomness, k: int)
    requires DemoForecastSpec(cityName, today, rng).Some?
    requires 0 <= k < 40
    ensures var base := DemoLookup(ForecastBases, cityName).value.temp;
      var slot := DemoForecastSpec(cityName, today, rng).value.slots[k];
      && base - 5.0 <= slot.temp <= base + 5.0
      && slot.tempMin == slot.temp - 2.0 && slot.tempMax == slot.temp + 2.0
      && 50 <= slot.humidity <= 80
      && 1.0 <= slot.windSpeed <= 5.0
      && slot.weather in Patterns
  {
    var b := DemoLookup(ForecastBases, cityName).value;
    DaysIndex(b.temp, today, rng, DayCount, k);
  }

  /** The reported city is "김포" for kimpo in any case and the title-cased
      input otherwise; the country is "KR" exactly for the Korean cities. */
  lemma DemoForecastCity(cityName: string, today: int, rng: Randomness)
    requires DemoForecastSpec(cityName, today, rng).Some?
    ensures var f := DemoForecastSpec(cityName, today, rng).value;
      && (Lower(cityName) == "kimpo" ==> f.cityName == "김포")
      && (Lower(cityName) != "kimpo" ==> f.cityName == Title(cityName) && Lower(f.cityName) == Lower(cityName))
      && (f.country == "KR" <==> Lower(cityName) in KoreanForecastCities)
      && (f.country != "KR" ==> f.country == "US")
  {
  }

  /** The forecast calls Tokyo, London and Paris American, although their
      demo weather records say JP, GB and FR. */
  lemma ForeignForecastsSayUS(today: int, rng: Randomness)
    ensures ForecastCountry("tokyo") == "US" && DemoTable["tokyo"].country == "JP"
    ensures ForecastCountry("london") == "US" && DemoTable["london"].country == "GB"
    ensures ForecastCountry("paris") == "US" && DemoTable["paris"].country == "FR"
    ensures DemoForecastSpec("tokyo", today, rng).Some?
  {
    assert Lower("tokyo") == "tokyo";
    assert Lower("london") == "london";
    assert Lower("paris") == "paris";
  }
}
